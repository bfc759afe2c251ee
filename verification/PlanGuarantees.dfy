/** What planning promises: progress, safe replanning and narrowed authority. */
module PlanGuarantees {
  import opened Types
  import opened Graph
  import opened StoreOps
  import opened WorkflowOps
  import opened System
  import opened Invariant
  import opened PairProofs
  import opened TaskProofs
  import opened StoreProofs
  import opened SettleProofs
  import opened ScheduleProofs
  import opened RetireProofs
  import opened PlanShapes
  import opened RevisionProofs
  import opened PlanProofs
  import opened RunProofs
  import opened RunGuarantees

  // ---------------------------------------------------------------------- progress

  /** Keys of a revision's children that are not finished. */
  ghost function OpenKeys(db: Db, r: TaskId, revision: nat): set<Label> {
    set c | c in db.children && c.root == r && c.revision == revision && Unfinished(db, c.task) :: c.key
  }

  /** No dependency of `c` is still unfinished. */
  ghost predicate Unblocked(db: Db, c: Child) {
    forall d :: d in db.children && DependsOn(c, d) ==> d.task in db.tasks && Terminal(db.tasks[d.task].status)
  }

  lemma RevisionGraph(root: Root, rows: seq<Child>, c: Child)
    requires Planned(root, rows, c)
    ensures 1 <= c.revision <= |root.plans| && root.plans[c.revision - 1].doc.Plan?
    ensures var g := PlanGraph(root.plans[c.revision - 1].doc.children);
            Acyclic(g) && c.key in g && g[c.key] == (set d | d in c.dependencies)
  {
  }

  /** If the current revision still has an unfinished child, some unfinished child of it waits
      for nothing: the workflow cannot deadlock. */
  lemma NoDeadlock(cfg: Config, db: Db, c: Child) returns (k: Child)
    requires Inv(cfg, db) && c in db.children && Unfinished(db, c.task)
    ensures k in db.children && k.root == c.root && k.revision == c.revision && Unfinished(db, k.task) && Unblocked(db, k)
  {
    hide Inv, Acyclic, Planned, Unfinished, PlanGraph;
    InvRows(cfg, db);
    KnownChild(cfg, db, c);
    var root := db.roots[c.root];
    RevisionGraph(root, db.children, c);
    var g := PlanGraph(root.plans[c.revision - 1].doc.children);
    var s := OpenKeys(db, c.root, c.revision);
    forall d | d in db.children && d.root == c.root && d.revision == c.revision
      ensures d.key in g && g[d.key] == (set x | x in d.dependencies)
    {
      RevisionGraph(root, db.children, d);
    }
    assert c.key in s;
    var key := AcyclicHasMinimal(g, s);
    k :| k in db.children && k.root == c.root && k.revision == c.revision && Unfinished(db, k.task) && k.key == key;
    forall d | d in db.children && DependsOn(k, d) ensures d.task in db.tasks && Terminal(db.tasks[d.task].status) {
      KnownChild(cfg, db, d);
      assert d.key in g[k.key];
      assert d.key !in g[key] * s;
      assert Unfinished(db, d.task) ==> d.key in s;
      FinishedUnless(db, d.task);
    }
  }

  lemma FinishedUnless(db: Db, t: TaskId)
    requires t in db.tasks
    ensures Unfinished(db, t) || Terminal(db.tasks[t].status)
  {
  }

  /** The delivery of an unblocked child is decided at once: everything is sent, or it is refused. */
  lemma {:induction false} UnblockedDecides(cfg: Config, db: Db, c: Child, keys: seq<Label>, sound: set<TaskId>)
    requires Inv(cfg, db) && c in db.children && Unblocked(db, c) && forall k :: k in keys ==> k in c.dependencies
    ensures !DeliverFrom(db, c, keys, sound).1.Waiting?
    decreases |keys|
  {
    hide Inv, Advances, RefuseDependency, Terminal;
    if keys != [] {
      SourceKnown(cfg, db, c, keys[0]);
      var d := SourceChild(db.children, c.root, keys[0], c.revision).value;
      var db1 := Send(db, d.task, c.task);
      SendKeeps(cfg, db, d.task, c.task);
      assert Unblocked(db1, c);
      UnblockedDecides(cfg, db1, c, keys[1..], sound);
    }
  }

  /** Dependencies gate attempts in every reachable state: a child that was ever placed has every
      dependency of its own revision succeeded and delivered. */
  lemma AttemptsGated(cfg: Config, steps: seq<Step>, c: Child, d: Child)
    requires var db := Reached(cfg, steps).db;
             c in db.children && d in db.children && !c.carried && DependsOn(c, d) && Attempted(db.attempts, c.task)
    ensures var db := Reached(cfg, steps).db; Satisfied(db.tasks, db.transfers, c, d)
  {
    hide Reached, Inv, DependsOn, Attempted, Satisfied;
    ReachedSound(cfg, steps);
    InvRows(cfg, Reached(cfg, steps).db);
  }

  // ---------------------------------------------------------------------- authority

  /** Every child task is pointwise within its root, in every reachable state. */
  lemma AuthorityNarrows(cfg: Config, steps: seq<Step>, c: Child)
    requires c in Reached(cfg, steps).db.children
    ensures var db := Reached(cfg, steps).db;
            && c.root in db.roots && c.task in db.tasks
            && var spec, root := db.tasks[c.task].spec, db.roots[c.root].authority;
               && spec.runtime == root.runtime && spec.workspace == root.workspace && spec.model == root.model
               && (root.sandbox.ReadOnly? ==> spec.sandbox.ReadOnly?) && spec.tools <= root.tools
               && WithinBudget(spec.budget, root.budget)
               && spec.retry.maxAttempts <= root.retry.maxAttempts && (spec.retry.replaySafe ==> root.retry.replaySafe)
               && (db.roots[c.root].maxTokens.Some? ==> spec.budget.maxTokens.Some?)
  {
    hide Reached, Inv, WithinBudget;
    ReachedSound(cfg, steps);
    KnownChild(cfg, Reached(cfg, steps).db, c);
  }

  // ------------------------------------------------------------------------ replans

  /** Work that still wants to run belongs to the current revision, one task per child key. */
  lemma CurrentRevisionOnly(cfg: Config, steps: seq<Step>, c: Child, d: Child)
    requires var db := Reached(cfg, steps).db;
             && c in db.children && d in db.children && c.root == d.root && Unfinished(db, c.task) && Unfinished(db, d.task)
             && db.tasks[c.task].desired.Run? && db.tasks[d.task].desired.Run?
    ensures var db := Reached(cfg, steps).db;
            && c.root in db.roots && c.revision == db.roots[c.root].planRevision == d.revision
            && (c.key == d.key ==> c == d)
  {
    hide Reached, Inv;
    ReachedSound(cfg, steps);
    var db := Reached(cfg, steps).db;
    KnownChild(cfg, db, c);
    KnownChild(cfg, db, d);
    InvFlow(cfg, db);
    assert Akin(c, d);
  }

  /** Revisions never fall and recorded plans are never rewritten, over any continuation; each accepted
      plan or replan starts a strictly higher revision, and nothing else does. */
  lemma RevisionsRise(cfg: Config, before: seq<Step>, after: seq<Step>, r: TaskId, doc: PlanDoc, replan: bool)
    requires r in Reached(cfg, before).db.roots
    ensures var x := Reached(cfg, before).db;
            var y := Exec(cfg, Reached(cfg, before), after).db;
            && r in y.roots && x.roots[r].planRevision <= y.roots[r].planRevision && x.roots[r].plans <= y.roots[r].plans
    ensures var x := Reached(cfg, before).db;
            var (z, receipt) := SettlePlan(x, r, doc, replan);
            && r in z.roots && x.roots[r].plans <= z.roots[r].plans
            && (if receipt.state.Accepted? then x.roots[r].planRevision < z.roots[r].planRevision == receipt.revision
                else z.roots[r].planRevision == x.roots[r].planRevision)
  {
    hide Reached, Inv, Sound, Advances, SettlePlan;
    ReachedSound(cfg, before);
    ExecAdvances(cfg, Reached(cfg, before), after);
    RootStep(Reached(cfg, before).db, Exec(cfg, Reached(cfg, before), after).db, r);
    AcceptedExactly(cfg, Reached(cfg, before).db, r, doc, replan);
  }

  lemma AcceptedTasks(cfg: Config, db: Db, r: TaskId, doc: PlanDoc)
    requires Inv(cfg, db) && r in db.roots && PreparePlan(db, r, doc, true).Some?
    ensures forall t :: t in OpenChildren(db, r) ==> t in db.tasks
    ensures var db1 := SettlePlan(db, r, doc, true).0;
            var x := RetireAll(db, OpenChildren(db, r));
            && RetiredSet(db, x, OpenChildren(db, r)) && AllOpen(db, r, OpenChildren(db, r))
            && (forall t :: t in db.tasks ==> t in db1.tasks && t in x.tasks && db1.tasks[t] == x.tasks[t])
            && db1.attempts == x.attempts
  {
    hide Inv, Advances, PreparePlan, RetiredSet, AllOpen;
    var ps := PreparePlan(db, r, doc, true).value;
    ReplacedKeeps(cfg, db, r, true, OpenChildren(db, r));
    var x := RetireAll(db, OpenChildren(db, r));
    RetiredFrame(db, x, OpenChildren(db, r));
    KnownIds(cfg, x);
    var more := FilledShape(x, r, |db.roots[r].plans| + 1, ps);
    var f := InsertChildren(x, r, |db.roots[r].plans| + 1, ps).0;
    assert FilledFrame(x, f);
    var db1 := SettlePlan(db, r, doc, true).0;
    assert db1.tasks == f.tasks && db1.attempts == f.attempts;
  }

  /** An accepted replan ends only work that provably has not started.  A launched or Unknown child
      keeps its attempt row, and with it its reservation; every other task is untouched. */
  lemma ReplanReleasesOnlyUnstarted(cfg: Config, db: Db, r: TaskId, doc: PlanDoc, t: TaskId)
    requires Inv(cfg, db) && r in db.roots && PreparePlan(db, r, doc, true).Some? && t in db.tasks
    ensures var db1 := SettlePlan(db, r, doc, true).0;
            && t in db1.tasks
            && (!IsOpenChild(db, r, t) ==> db1.tasks[t] == db.tasks[t])
            && (IsOpenChild(db, r, t) ==> db1.tasks[t].desired.Cancel?)
            && (IsOpenChild(db, r, t) && Unstarted(db, t) ==> db1.tasks[t].status.Cancelled?)
            && (IsOpenChild(db, r, t) && !Unstarted(db, t) ==> db1.tasks[t].status == db.tasks[t].status)
            && (forall a :: a in db.attempts && (!db.attempts[a].state.Queued? || !IsOpenChild(db, r, db.attempts[a].task))
                  ==> a in db1.attempts && db1.attempts[a] == db.attempts[a])
  {
    hide Inv, PreparePlan, SettlePlan, RetireAll, IsOpenChild, OpenChildren, Unstarted;
    AcceptedTasks(cfg, db, r, doc);
  }

  /** A rejected replan changes nothing but the record of plans. */
  lemma RejectedReplanHarmless(db: Db, r: TaskId, doc: PlanDoc)
    requires r in db.roots && db.roots[r].planRevision > 0 && SettlePlan(db, r, doc, true).1.state.Rejected?
    ensures var db1 := SettlePlan(db, r, doc, true).0;
            && db1.tasks == db.tasks && db1.attempts == db.attempts && db1.children == db.children && db1.transfers == db.transfers
            && db1.roots == db.roots[r := db.roots[r].(plans := db.roots[r].plans + [PlanRow(false, doc)])]
  {
    hide PreparePlan;
    if PreparePlan(db, r, doc, true).Some? {
      AcceptedReceipt(db, r, doc, true, PreparePlan(db, r, doc, true).value);
    }
  }

  lemma AcceptedReceipt(db: Db, r: TaskId, doc: PlanDoc, replan: bool, ps: seq<Prepared>)
    requires r in db.roots
    ensures var (db1, receipt) := AcceptPlan(db, r, doc, replan, ps);
            && receipt.state.Accepted? && receipt.revision == |db.roots[r].plans| + 1
            && db1.roots == db.roots[r := AcceptedRoot(db.roots[r], doc, replan)]
  {
    hide RetireAll, InsertChildren, OpenChildren;
  }

  /** A plan is accepted exactly when it is still due and its preparation succeeds; then it is well
      shaped, it is recorded as the next revision, and that revision is current. */
  lemma AcceptedExactly(cfg: Config, db: Db, r: TaskId, doc: PlanDoc, replan: bool)
    requires Inv(cfg, db) && r in db.roots
    ensures var (db1, receipt) := SettlePlan(db, r, doc, replan);
            && r in db1.roots && db.roots[r].plans <= db1.roots[r].plans
            && (receipt.state.Accepted? <==> (replan || db.roots[r].planRevision == 0) && PreparePlan(db, r, doc, replan).Some?)
            && (receipt.state.Accepted? ==>
                  && WellShaped(doc, db.roots[r].maxChildren)
                  && db1.roots[r].plans == db.roots[r].plans + [PlanRow(true, doc)]
                  && db.roots[r].planRevision < db1.roots[r].planRevision == receipt.revision == |db1.roots[r].plans|)
            && (!receipt.state.Accepted? ==> db1.roots[r].planRevision == db.roots[r].planRevision)
  {
    hide PreparePlan, AcceptPlan, RecordRejected, Inv, WellShaped;
    InvAccounted(cfg, db, r);
    RejectedRoots(db, r, doc);
    if PreparePlan(db, r, doc, replan).Some? {
      AcceptedReceipt(db, r, doc, replan, PreparePlan(db, r, doc, replan).value);
      PreparedShape(db, r, doc, replan);
    }
  }

  lemma RejectedRoots(db: Db, r: TaskId, doc: PlanDoc)
    requires r in db.roots
    ensures var db1 := RecordRejected(db, r, doc);
            && r in db1.roots && db.roots[r].plans <= db1.roots[r].plans && db1.roots[r].planRevision == db.roots[r].planRevision
  {
  }

  lemma PreparedShape(db: Db, r: TaskId, doc: PlanDoc, replan: bool)
    requires r in db.roots && PreparePlan(db, r, doc, replan).Some?
    ensures WellShaped(doc, db.roots[r].maxChildren)
  {
    hide WellShaped, PreparePlan, Decided, Requested, HeldTokens, OpenChildren;
    PlanDecided(db, r, doc, replan);
  }
}
