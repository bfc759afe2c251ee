/** Workflow planning, budgets and dependency delivery. */
module WorkflowOps {
  import opened Types
  import opened StoreOps
  import opened Graph

  // ------------------------------------------------------------ plan documents

  function OrderOf(cs: seq<PlanChild>, i: nat): nat
    requires i < |cs|
  {
    cs[i].order.GetOr(i)
  }

  predicate NoRepeats(xs: seq<Label>) {
    forall i, j :: 0 <= i < j < |xs| ==> xs[i] != xs[j]
  }

  /** The dependency graph a plan document describes. */
  function PlanGraph(cs: seq<PlanChild>): Edges {
    if cs == [] then map[]
    else
      var n := |cs| - 1;
      PlanGraph(cs[..n])[cs[n].id := set d | d in cs[n].dependencies]
  }

  predicate ChildrenNamed(cs: seq<PlanChild>) {
    forall i, j :: 0 <= i < j < |cs| ==> cs[i].id != cs[j].id
  }

  predicate OrdersContiguous(cs: seq<PlanChild>) {
    && (forall i, j :: 0 <= i < j < |cs| ==> OrderOf(cs, i) != OrderOf(cs, j))
    && (forall k :: 0 <= k < |cs| ==> HasOrder(cs, k))
  }

  predicate HasOrder(cs: seq<PlanChild>, k: nat) {
    exists i :: 0 <= i < |cs| && OrderOf(cs, i) == k
  }

  predicate Knows(cs: seq<PlanChild>, id: Label) {
    exists i :: 0 <= i < |cs| && cs[i].id == id
  }

  predicate ChildShaped(cs: seq<PlanChild>, c: PlanChild) {
    && NoRepeats(c.dependencies)
    && (forall d :: d in c.dependencies ==> Knows(cs, d))
    && NoRepeats(c.delivery.files)
  }

  ghost predicate WellShaped(doc: PlanDoc, maxChildren: int) {
    && doc.Plan?
    && 1 <= |doc.children| <= 1000
    && |doc.children| <= maxChildren
    && ChildrenNamed(doc.children)
    && OrdersContiguous(doc.children)
    && (forall c :: c in doc.children ==> ChildShaped(doc.children, c))
    && Acyclic(PlanGraph(doc.children))
  }

  /** `c` is the child whose order is `k`. */
  predicate PlacedAt(cs: seq<PlanChild>, k: nat, c: PlanChild) {
    exists i :: 0 <= i < |cs| && OrderOf(cs, i) == k && c == cs[i]
  }

  ghost function ChildAt(cs: seq<PlanChild>, k: nat): (c: PlanChild)
    requires HasOrder(cs, k)
    ensures PlacedAt(cs, k, c)
  {
    var i :| 0 <= i < |cs| && OrderOf(cs, i) == k; cs[i]
  }

  /** The children rearranged by their order. */
  ghost function Arranged(cs: seq<PlanChild>): (r: seq<PlanChild>)
    requires OrdersContiguous(cs)
    ensures |r| == |cs|
    ensures forall k :: 0 <= k < |cs| ==> PlacedAt(cs, k, r[k])
  {
    seq(|cs|, k requires 0 <= k < |cs| && HasOrder(cs, k) => ChildAt(cs, k))
  }

  // ----------------------------------------------------------------- authority

  function MergeBudget(root: Budget, d: BudgetDoc): Budget {
    Budget(d.deadlineSeconds.GetOr(root.deadlineSeconds), d.attemptSeconds.GetOr(root.attemptSeconds),
           d.requestSeconds.GetOr(root.requestSeconds), d.maxOutputBytes.GetOr(root.maxOutputBytes),
           d.maxSteps.GetOr(root.maxSteps), d.outputTokens.GetOr(root.outputTokens), d.maxTokens.GetOr(root.maxTokens))
  }

  function MergeRetry(root: Retry, d: RetryDoc): Retry {
    Retry(d.maxAttempts.GetOr(root.maxAttempts), d.replaySafe.GetOr(root.replaySafe),
          d.backoffSeconds.GetOr(root.backoffSeconds), d.on.GetOr(root.on))
  }

  predicate Broadens(b: Budget, root: Budget) {
    || b.deadlineSeconds > root.deadlineSeconds || b.attemptSeconds > root.attemptSeconds
    || b.requestSeconds > root.requestSeconds || b.maxOutputBytes > root.maxOutputBytes
    || b.maxSteps > root.maxSteps || b.outputTokens > root.outputTokens
    || (b.maxTokens.Some? && root.maxTokens.Some? && b.maxTokens.value > root.maxTokens.value)
  }

  function WithShare(b: Budget, d: BudgetDoc, share: Option<int>): Budget {
    if d.maxTokens.None? && share.Some? then
      b.(maxTokens := Some(if b.maxTokens.Some? && b.maxTokens.value < share.value then b.maxTokens.value else share.value))
    else b
  }

  /** One child's task from root authority and the plan's narrowing; None is a refusal. */
  function ChildSpec(root: Spec, d: ChildDoc, share: Option<int>, bounded: bool): Option<Spec> {
    var tools := d.tools.GetOr(root.tools);
    var sandbox := d.sandbox.GetOr(root.sandbox);
    var retry := MergeRetry(root.retry, d.retry);
    var budget := MergeBudget(root.budget, d.budget);
    if !d.permitted then None
    else if d.runtime.GetOr(root.runtime) != root.runtime then None
    else if d.workspace.GetOr(root.workspace) != root.workspace then None
    else if root.sandbox.ReadOnly? && !sandbox.ReadOnly? then None
    else if sandbox.WorkspaceWrite? && WRITE_FILE !in root.tools then None
    else if !(tools <= root.tools) then None
    else if d.model.GetOr(root.model) != root.model then None
    else if retry.maxAttempts > root.retry.maxAttempts || (retry.replaySafe && !root.retry.replaySafe) then None
    else if root.budget.maxTokens.Some? && budget.maxTokens.None? then None
    else if bounded && d.budget.maxTokens == Some(None) then None
    else if Broadens(budget, root.budget) then None
    else
      var spec := Spec(root.runtime, root.workspace, root.model, sandbox, tools,
                       WithShare(budget, d.budget, share), retry, d.content.GetOr(root.content));
      if d.sound && ValidSpec(spec) then Some(spec) else None
  }

  // --------------------------------------------------------------- open children

  predicate IsChild(rows: seq<Child>, root: TaskId, t: TaskId) {
    exists c :: c in rows && c.root == root && c.task == t
  }

  predicate IsOpenChild(db: Db, root: TaskId, t: TaskId) {
    t in db.tasks && !Terminal(db.tasks[t].status) && IsChild(db.children, root, t)
  }

  function OpenChildren(db: Db, root: TaskId): seq<TaskId> {
    Select(db.nextId, (t: nat) => IsOpenChild(db, root, t))
  }

  /** Nothing can have run: the task holds no attempt, or one that is still Queued. */
  predicate Unstarted(db: Db, t: TaskId)
    requires t in db.tasks
  {
    var current := db.tasks[t].current;
    current.None? || (current.value in db.attempts && db.attempts[current.value].state.Queued?)
  }

  function Unspent(task: Task): nat {
    var ceiling := task.spec.budget.maxTokens.GetOr(0);
    if ceiling > task.tokensUsed then ceiling - task.tokensUsed else 0
  }

  /** What launched tasks among `ids` may still spend. */
  function HeldTokens(db: Db, ids: seq<TaskId>): nat
    requires forall t :: t in ids ==> t in db.tasks
  {
    if ids == [] then 0
    else
      var n := |ids| - 1;
      HeldTokens(db, ids[..n]) + if Unstarted(db, ids[n]) then 0 else Unspent(db.tasks[ids[n]])
  }

  // -------------------------------------------------------------- plan settlement

  /** The latest succeeded row for a child key: only verified work is carried over. */
  function CarrySource(db: Db, root: TaskId, key: Label, upto: nat): Option<Child> {
    var source := SourceChild(db.children, root, key, upto);
    if source.Some? && source.value.task in db.tasks && db.tasks[source.value.task].status.Succeeded? then source else None
  }

  datatype Prepared = Prepared(child: PlanChild, spec: Spec, carried: Option<Child>)

  predicate Fresh(db: Db, r: TaskId, c: PlanChild)
    requires r in db.roots
  {
    CarrySource(db, r, c.id, db.roots[r].planRevision).None?
  }

  /** Fresh children that leave the token ceiling to the workflow. */
  function ImplicitCount(db: Db, r: TaskId, cs: seq<PlanChild>): nat
    requires r in db.roots
  {
    if cs == [] then 0
    else
      var n := |cs| - 1;
      ImplicitCount(db, r, cs[..n]) + if Fresh(db, r, cs[n]) && cs[n].task.budget.maxTokens.None? then 1 else 0
  }

  /** Tokens that fresh children ask for by themselves; a written null adds nothing. */
  function ExplicitTokens(db: Db, r: TaskId, cs: seq<PlanChild>): int
    requires r in db.roots
  {
    if cs == [] then 0
    else
      var n := |cs| - 1;
      ExplicitTokens(db, r, cs[..n])
      + if Fresh(db, r, cs[n]) then cs[n].task.budget.maxTokens.GetOr(None).GetOr(0) else 0
  }

  /** Workflow tokens a new revision may hand out; None for an unbounded workflow. */
  function Available(db: Db, r: TaskId, open: seq<TaskId>): Option<int>
    requires r in db.roots
    requires forall t :: t in open ==> t in db.tasks
  {
    var root := db.roots[r];
    if root.maxTokens.None? then None else Some(root.maxTokens.value - root.tokensUsed - HeldTokens(db, open))
  }

  /** The equal share of what explicit siblings leave. */
  function Share(db: Db, r: TaskId, available: Option<int>, cs: seq<PlanChild>): Option<int>
    requires r in db.roots
  {
    var implicit := ImplicitCount(db, r, cs);
    if available.None? || implicit == 0 then None else Some((available.value - ExplicitTokens(db, r, cs)) / implicit)
  }

  function PrepareChild(db: Db, r: TaskId, c: PlanChild, share: Option<int>, bounded: bool): Option<Prepared>
    requires r in db.roots
  {
    var carried := CarrySource(db, r, c.id, db.roots[r].planRevision);
    var spec := ChildSpec(db.roots[r].authority, c.task, if carried.None? then share else None, bounded);
    if spec.None? then None else Some(Prepared(c, spec.value, carried))
  }

  /** Prepares the children in order; None as soon as one is refused. */
  function PrepareChildren(db: Db, r: TaskId, cs: seq<PlanChild>, share: Option<int>, bounded: bool): (ps: Option<seq<Prepared>>)
    requires r in db.roots
    ensures ps.Some? ==> |ps.value| == |cs|
    ensures ps.Some? ==> forall i :: 0 <= i < |cs| ==> Some(ps.value[i]) == PrepareChild(db, r, cs[i], share, bounded)
  {
    if cs == [] then Some([])
    else
      var n := |cs| - 1;
      var first := PrepareChildren(db, r, cs[..n], share, bounded);
      if first.None? then None
      else
        var last := PrepareChild(db, r, cs[n], share, bounded);
        if last.None? then None else Some(first.value + [last.value])
  }

  function Requested(ps: seq<Prepared>): int {
    if ps == [] then 0
    else
      var n := |ps| - 1;
      Requested(ps[..n]) + if ps[n].carried.None? then ps[n].spec.budget.maxTokens.GetOr(0) else 0
  }

  /** The whole decision on a plan document: its prepared children, or None for a rejection. */
  ghost function PreparePlan(db: Db, r: TaskId, doc: PlanDoc, replan: bool): Option<seq<Prepared>>
    requires r in db.roots
  {
    var root := db.roots[r];
    var open := if replan then OpenChildren(db, r) else [];
    var available := Available(db, r, open);
    if !WellShaped(doc, root.maxChildren) then None
    else if root.maxTokens.Some? && root.maxTokens.value - root.tokensUsed <= 0 then None
    else if root.maxAttempts - root.attemptsUsed < 1 then None
    else if available.Some? && available.value <= 0 then None
    else
      var cs := Arranged(doc.children);
      var share := Share(db, r, available, cs);
      if share.Some? && share.value < 1 then None
      else
        var ps := PrepareChildren(db, r, cs, share, available.Some?);
        if ps.None? then None
        else if available.Some? && Requested(ps.value) > available.value then None
        else ps
  }

  function RecordRejected(db: Db, r: TaskId, doc: PlanDoc): Db
    requires r in db.roots
  {
    var root := db.roots[r].(plans := db.roots[r].plans + [PlanRow(false, doc)]);
    Log(db.(roots := db.roots[r := if root.planRevision == 0 then root.(state := RootFailed, reason := Some(PlanInvalid)) else root]),
        r, PlanRejected)
  }

  /** Cancels an attempt nobody has claimed. */
  function CancelledBeforeLaunch(row: Attempt, kind: Kind, now: Time): Attempt {
    row.(state := AttemptState.Cancelled, sequence := row.sequence + 1, finishedAt := Some(now), heartbeat := now,
         tokens := Some(0), kind := Some(kind))
  }

  function RetiredTask(task: Task, unstarted: bool, now: Time): Task {
    var row := task.(desired := Action.Cancel, reason := Some(ObsoleteByReplan));
    if unstarted then row.(status := Status.Cancelled, finishedAt := Some(now)) else row
  }

  function RetiredAttempt(row: Attempt, now: Time): Attempt {
    CancelledBeforeLaunch(row, Stopped, now).(reserved := false, settled := true)
  }

  /** A replaced child: unstarted work ends here, launched work is asked to stop. */
  function Retire(db: Db, t: TaskId): Db
    requires t in db.tasks
  {
    var unstarted, current := Unstarted(db, t), db.tasks[t].current;
    Log(db.(tasks := db.tasks[t := RetiredTask(db.tasks[t], unstarted, db.clock)],
            attempts := if unstarted && current.Some? && current.value in db.attempts
                        then db.attempts[current.value := RetiredAttempt(db.attempts[current.value], db.clock)]
                        else db.attempts),
        t, if unstarted then ChildCancelled else ChildCancelRequested)
  }

  function RetireAll(db: Db, ids: seq<TaskId>): (r: Db)
    requires forall t :: t in ids ==> t in db.tasks
    ensures r.tasks.Keys == db.tasks.Keys
    ensures r.nextId == db.nextId && r.clock == db.clock
  {
    if ids == [] then db else var n := |ids| - 1; Retire(RetireAll(db, ids[..n]), ids[n])
  }

  function AddRow(db: Db, row: Child): Db {
    Log(db.(children := db.children + [row]), row.task, ChildCreated)
  }

  function InsertChild(db: Db, r: TaskId, revision: nat, index: nat, p: Prepared): (Db, TaskId) {
    if p.carried.Some? then
      var t := p.carried.value.task;
      (AddRow(db, Child(r, revision, index, p.child.id, t, p.child.dependencies, p.child.delivery, true)), t)
    else
      var t := db.nextId;
      (AddRow(InsertTask(db, p.spec), Child(r, revision, index, p.child.id, t, p.child.dependencies, p.child.delivery, false)), t)
  }

  function InsertChildren(db: Db, r: TaskId, revision: nat, ps: seq<Prepared>): (x: (Db, seq<TaskId>))
    ensures x.0.roots == db.roots
    ensures |x.1| == |ps|
  {
    if ps == [] then (db, [])
    else
      var n := |ps| - 1;
      var (db1, ids) := InsertChildren(db, r, revision, ps[..n]);
      var (db2, t) := InsertChild(db1, r, revision, n, ps[n]);
      (db2, ids + [t])
  }

  function AcceptPlan(db: Db, r: TaskId, doc: PlanDoc, replan: bool, ps: seq<Prepared>): (Db, Receipt)
    requires r in db.roots
  {
    var root := db.roots[r];
    var revision := |root.plans| + 1;
    var retired := RetireAll(db, if replan then OpenChildren(db, r) else []);
    var (filled, ids) := InsertChildren(retired, r, revision, ps);
    var root' := root.(state := Executing, planRevision := revision, reason := None,
                       iteration := root.iteration + if replan then 1 else 0,
                       plans := root.plans + [PlanRow(true, doc)]);
    (Log(filled.(roots := db.roots[r := root']), r, PlanAccepted), Receipt(revision, Accepted, ids))
  }

  ghost function SettlePlan(db: Db, r: TaskId, doc: PlanDoc, replan: bool): (Db, Receipt)
    requires r in db.roots
  {
    var root := db.roots[r];
    if !replan && root.planRevision > 0 then (Log(db, r, PlanIgnored), Receipt(root.planRevision, Ignored, []))
    else
      var ps := PreparePlan(db, r, doc, replan);
      if ps.None? then (RecordRejected(db, r, doc), Receipt(|root.plans| + 1, Rejected, []))
      else AcceptPlan(db, r, doc, replan, ps.value)
  }

  datatype PlanOutcome = Answer(receipt: Receipt, duplicate: bool) | Declined(error: Error)

  ghost function SettlePlanCommand(db: Db, r: TaskId, doc: PlanDoc, replan: bool, key: Option<Label>): (Db, PlanOutcome) {
    if key.Some? && key.value in db.commands then
      var c := db.commands[key.value];
      if c.payload != PlanPayload(replan, r, doc) || c.receipt.None? then (db, Declined(Conflict))
      else (db, Answer(c.receipt.value, true))
    else if r !in db.roots then (db, Declined(NotFound))
    else if !replan && db.roots[r].planRevision > 0 then (db, Declined(Conflict))
    else
      var (db1, receipt) := SettlePlan(db, r, doc, replan);
      (if key.None? then db1 else Record(db1, key.value, Command(r, PlanPayload(replan, r, doc), db.clock, Some(receipt))),
       Answer(receipt, false))
  }

  /** The document describes a workflow whose root and planner both validate. */
  predicate Creatable(raw: Raw) {
    && raw.sound && ValidSpec(raw.spec) && raw.workflow.Some? && raw.workflow.value.enabled
    && ValidWorkflow(raw.workflow.value) && ValidSpec(PlannerSpec(raw, raw.workflow.value))
  }

  /** Accepts a workflow root and its ordinary planner task together. */
  function CreateWorkflow(db: Db, key: Label, raw: Raw): (Db, Outcome) {
    if !Creatable(raw) then (db, Refused(Invalid))
    else if key in db.commands then
      var c := db.commands[key];
      if c.payload != SubmitPayload(raw) || c.task !in db.roots then (db, Refused(Conflict))
      else (db, Receipted(c.task, true))
    else
      var w := raw.workflow.value;
      var t := db.nextId;
      var db1 := Record(InsertTask(db, PlannerSpec(raw, w)), key, Command(t, SubmitPayload(raw), db.clock, None));
      (Log(db1.(roots := db1.roots[t := Root(Planning, 0, 0, [], raw.spec, w.maxChildren, w.maxTokens, w.maxAttempts, 0, 0, None)]),
           t, WorkflowCreated), Receipted(t, false))
  }

  // ------------------------------------------------------------------ admission

  datatype Dependency = Ready | Waiting | Blocked

  function Send(db: Db, source: TaskId, target: TaskId): Db {
    if (source, target) in db.transfers then db
    else db.(transfers := db.transfers[(source, target) := Delivered])
  }

  /** A dependency that can never be delivered fails its Pending consumer. */
  function RefuseDependency(db: Db, row: Child, source: TaskId): Db {
    var transfers := if (source, row.task) in db.transfers then db.transfers
                     else db.transfers[(source, row.task) := Undelivered];
    var tasks := if row.task in db.tasks && db.tasks[row.task].status.Pending? then
                   db.tasks[row.task := db.tasks[row.task].(status := Status.Failed, reason := Some(DependencyFailed),
                                                            finishedAt := Some(db.clock))]
                 else db.tasks;
    var roots := if row.root in db.roots then db.roots[row.root := db.roots[row.root].(reason := Some(DependencyFailed))]
                 else db.roots;
    Log(db.(transfers := transfers, tasks := tasks, roots := roots), row.task, DependencyRefused)
  }

  /** Delivers the remaining dependency keys; `sound` holds the sources whose payload can be built. */
  function DeliverFrom(db: Db, row: Child, keys: seq<Label>, sound: set<TaskId>): (Db, Dependency)
    decreases |keys|
  {
    if keys == [] then (db, Ready)
    else
      var source := SourceChild(db.children, row.root, keys[0], row.revision);
      if source.None? then (RefuseDependency(db, row, row.task), Blocked)
      else
        var s := source.value.task;
        if s in db.tasks && !Terminal(db.tasks[s].status) then (db, Waiting)
        else if s !in db.tasks || !db.tasks[s].status.Succeeded? || s !in sound then (RefuseDependency(db, row, s), Blocked)
        else DeliverFrom(Send(db, s, row.task), row, keys[1..], sound)
  }

  function Deliver(db: Db, t: TaskId, sound: set<TaskId>): (Db, Dependency) {
    var row := LatestChild(db.children, t);
    if row.None? || row.value.dependencies == [] then (db, Ready)
    else
      var (db1, d) := DeliverFrom(db, row.value, row.value.dependencies, sound);
      (if d.Ready? then Log(db1, t, DependenciesDelivered) else db1, d)
  }

  /** Why a workflow admits no further attempt, if it does not. */
  function Exhausted(root: Root): Option<Reason> {
    if root.maxTokens.Some? && root.tokensUsed >= root.maxTokens.value then Some(TokensExhausted)
    else if root.state.RootFailed? then Some(root.reason.GetOr(WorkflowFailed))
    else if root.attemptsUsed >= root.maxAttempts then Some(AttemptsExhausted)
    else None
  }

  function ClaimAttempt(db: Db, t: TaskId): (Db, bool) {
    var row := LatestChild(db.children, t);
    if row.None? || row.value.root !in db.roots then (db, true)
    else
      var root := db.roots[row.value.root];
      var reason := Exhausted(root);
      if reason.Some? then
        var tasks := if t in db.tasks && db.tasks[t].status.Pending? then
                       db.tasks[t := db.tasks[t].(status := Status.Failed, reason := reason, finishedAt := Some(db.clock))]
                     else db.tasks;
        (Log(db.(tasks := tasks), t, TaskFinished), false)
      else (db.(roots := db.roots[row.value.root := root.(attemptsUsed := root.attemptsUsed + 1)]), true)
  }

  /** Usage flows up from a settled attempt of `t` to its workflow. */
  function RecordUsage(roots: map<TaskId, Root>, rows: seq<Child>, t: TaskId, tokens: nat): map<TaskId, Root> {
    var row := LatestChild(rows, t);
    if row.None? || row.value.root !in roots then roots
    else
      var root := roots[row.value.root];
      var root' := root.(tokensUsed := root.tokensUsed + tokens);
      roots[row.value.root := if root'.maxTokens.Some? && root'.tokensUsed > root'.maxTokens.value
                              then root'.(state := RootFailed, reason := Some(TokensExhausted)) else root']
  }
}
