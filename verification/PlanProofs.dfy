/** Plan settlement keeps the invariant and never hands out more tokens than the workflow has. */
module PlanProofs {
  import opened Types
  import opened Sums
  import opened Graph
  import opened StoreOps
  import opened WorkflowOps
  import opened Invariant
  import opened PairProofs
  import opened TaskProofs
  import opened StoreProofs
  import opened SettleProofs
  import opened ScheduleProofs
  import opened RetireProofs
  import opened PlanShapes
  import opened RevisionProofs

  // ---------------------------------------------------------------- inserted tasks

  predicate Insertable(db: Db, p: Prepared) {
    ValidSpec(p.spec) && (p.carried.Some? ==> p.carried.value.task in db.tasks)
  }

  predicate FilledRow(db: Db, f: Db, c: Child, p: Prepared, r: TaskId, revision: nat, k: nat) {
    && c == Child(r, revision, k, p.child.id, c.task, p.child.dependencies, p.child.delivery, p.carried.Some?)
    && if p.carried.Some? then c.task == p.carried.value.task
       else db.nextId <= c.task < f.nextId && c.task in f.tasks && f.tasks[c.task] == NewTask(p.spec, db.clock)
  }

  ghost predicate FilledFrame(db: Db, f: Db) {
    && f.attempts == db.attempts && f.roots == db.roots && f.transfers == db.transfers && f.intents == db.intents
    && f.clock == db.clock && db.nextId <= f.nextId
    && (forall t :: t in db.tasks ==> t in f.tasks && f.tasks[t] == db.tasks[t])
    && (forall t :: t in f.tasks ==> t in db.tasks || db.nextId <= t < f.nextId)
  }

  /** `f` is `db` with one row for each of `ps` and a task for each fresh one. */
  ghost predicate Filled(db: Db, f: Db, r: TaskId, revision: nat, ps: seq<Prepared>, more: seq<Child>) {
    && f.children == db.children + more && |more| == |ps|
    && FilledFrame(db, f)
    && (forall k :: 0 <= k < |ps| ==> FilledRow(db, f, more[k], ps[k], r, revision, k))
    && (forall i, j :: 0 <= i < j < |ps| && !more[i].carried && !more[j].carried ==> more[i].task != more[j].task)
  }

  lemma FillCarried(db: Db, f: Db, r: TaskId, revision: nat, ps: seq<Prepared>, more: seq<Child>, p: Prepared) returns (c: Child)
    requires Filled(db, f, r, revision, ps, more) && p.carried.Some?
    ensures Filled(db, InsertChild(f, r, revision, |ps|, p).0, r, revision, ps + [p], more + [c])
  {
    c := Child(r, revision, |ps|, p.child.id, p.carried.value.task, p.child.dependencies, p.child.delivery, true);
    assert db.children + more + [c] == db.children + (more + [c]);
  }

  lemma FillFresh(db: Db, f: Db, r: TaskId, revision: nat, ps: seq<Prepared>, more: seq<Child>, p: Prepared) returns (c: Child)
    requires Filled(db, f, r, revision, ps, more) && p.carried.None?
    requires forall t :: t in db.tasks ==> t < db.nextId
    ensures Filled(db, InsertChild(f, r, revision, |ps|, p).0, r, revision, ps + [p], more + [c])
  {
    c := Child(r, revision, |ps|, p.child.id, f.nextId, p.child.dependencies, p.child.delivery, false);
    var f1 := InsertChild(f, r, revision, |ps|, p).0;
    assert db.children + more + [c] == db.children + (more + [c]);
    assert FilledFrame(db, f1);
    forall k | 0 <= k < |ps| + 1 ensures FilledRow(db, f1, (more + [c])[k], (ps + [p])[k], r, revision, k) {
      if k < |ps| {
        assert FilledRow(db, f, more[k], ps[k], r, revision, k);
      }
    }
    forall i | 0 <= i < |ps| && !more[i].carried ensures more[i].task != c.task {
      assert FilledRow(db, f, more[i], ps[i], r, revision, i);
    }
  }

  lemma {:induction false} FilledShape(db: Db, r: TaskId, revision: nat, ps: seq<Prepared>) returns (more: seq<Child>)
    requires forall t :: t in db.tasks ==> t < db.nextId
    ensures Filled(db, InsertChildren(db, r, revision, ps).0, r, revision, ps, more)
  {
    if ps == [] {
      more := [];
    } else {
      var n := |ps| - 1;
      var first := FilledShape(db, r, revision, ps[..n]);
      var f := InsertChildren(db, r, revision, ps[..n]).0;
      hide Filled, InsertChild;
      var c;
      if ps[n].carried.Some? {
        c := FillCarried(db, f, r, revision, ps[..n], first, ps[n]);
      } else {
        c := FillFresh(db, f, r, revision, ps[..n], first, ps[n]);
      }
      more := first + [c];
      assert ps == ps[..n] + [ps[n]];
    }
  }

  /** The inserted tasks without their rows. */
  function TasksOnly(db: Db, f: Db): Db {
    f.(children := db.children)
  }

  lemma InsertChildTasks(db: Db, f: Db, r: TaskId, revision: nat, k: nat, p: Prepared)
    ensures var f1 := InsertChild(f, r, revision, k, p).0;
            TasksOnly(db, f1) ==
              if p.carried.Some? then Log(TasksOnly(db, f), p.carried.value.task, ChildCreated)
              else Log(InsertTask(TasksOnly(db, f), p.spec), f.nextId, ChildCreated)
  {
  }

  lemma {:induction false} FilledKeeps(cfg: Config, db: Db, r: TaskId, revision: nat, ps: seq<Prepared>)
    requires Inv(cfg, db) && forall p :: p in ps ==> Insertable(db, p)
    ensures var z := TasksOnly(db, InsertChildren(db, r, revision, ps).0); Inv(cfg, z) && Advances(db, z)
    ensures var z := TasksOnly(db, InsertChildren(db, r, revision, ps).0); forall t :: t in db.tasks ==> t in z.tasks
  {
    hide Inv, Advances, InsertChild, ValidSpec;
    if ps == [] {
      AdvancesReflexive(db);
    } else {
      var n := |ps| - 1;
      var f := InsertChildren(db, r, revision, ps[..n]).0;
      var z := TasksOnly(db, f);
      FilledKeeps(cfg, db, r, revision, ps[..n]);
      InsertChildTasks(db, f, r, revision, n, ps[n]);
      assert Insertable(db, ps[n]);
      if ps[n].carried.Some? {
        LogKeeps(cfg, z, ps[n].carried.value.task, ChildCreated);
        AdvancesTransitive(cfg, db, z, Log(z, ps[n].carried.value.task, ChildCreated));
      } else {
        var z1 := InsertTask(z, ps[n].spec);
        InsertTaskKeeps(cfg, z, ps[n].spec);
        AdvancesTransitive(cfg, db, z, z1);
        LogKeeps(cfg, z1, f.nextId, ChildCreated);
        AdvancesTransitive(cfg, db, z1, Log(z1, f.nextId, ChildCreated));
      }
    }
  }

  // --------------------------------------------------------------- prepared children

  /** What the decision on a plan guarantees about its prepared children. */
  ghost predicate Decided(db: Db, r: TaskId, doc: PlanDoc, ps: seq<Prepared>) {
    && doc.Plan? && OrdersContiguous(doc.children) && |ps| == |doc.children|
    && forall k :: 0 <= k < |ps| ==> DecidedChild(db, r, Arranged(doc.children)[k], ps[k])
  }

  ghost predicate DecidedChild(db: Db, r: TaskId, c: PlanChild, p: Prepared) {
    && r in db.roots && p.child == c && p.carried == CarrySource(db, r, c.id, db.roots[r].planRevision)
    && ValidSpec(p.spec) && WithinAuthority(p.spec, db.roots[r].authority)
    && (p.carried.None? && db.roots[r].maxTokens.Some? ==> p.spec.budget.maxTokens.Some?)
  }

  lemma PreparedDecided(db: Db, r: TaskId, cs: seq<PlanChild>, c: PlanChild, share: Option<int>, bounded: bool)
    requires r in db.roots && c in cs && PrepareChild(db, r, c, share, bounded).Some?
    requires bounded == db.roots[r].maxTokens.Some?
    requires bounded && ImplicitCount(db, r, cs) > 0 ==> share.Some?
    ensures DecidedChild(db, r, c, PrepareChild(db, r, c, share, bounded).value)
  {
    hide ChildSpec, CarrySource, ValidSpec, WithinAuthority;
    var unmet := CarrySource(db, r, c.id, db.roots[r].planRevision).None?;
    ChildSpecNarrows(db.roots[r].authority, c.task, if unmet then share else None, bounded);
    if unmet && bounded {
      if c.task.budget.maxTokens.None? {
        ImplicitCounted(db, r, cs, c);
      }
      PreparedCeiling(db, r, c, share);
    }
  }

  lemma PlanDecided(db: Db, r: TaskId, doc: PlanDoc, replan: bool)
    requires r in db.roots && PreparePlan(db, r, doc, replan).Some?
    ensures Decided(db, r, doc, PreparePlan(db, r, doc, replan).value)
    ensures WellShaped(doc, db.roots[r].maxChildren)
    ensures db.roots[r].maxTokens.Some? ==>
      Requested(PreparePlan(db, r, doc, replan).value)
      <= db.roots[r].maxTokens.value - db.roots[r].tokensUsed - HeldTokens(db, if replan then OpenChildren(db, r) else [])
  {
    var ps := PreparePlan(db, r, doc, replan).value;
    var open := if replan then OpenChildren(db, r) else [];
    var available := Available(db, r, open);
    var cs := Arranged(doc.children);
    var share := Share(db, r, available, cs);
    hide PrepareChild, DecidedChild, Requested, HeldTokens, Acyclic, PlanGraph, ImplicitCount, ExplicitTokens;
    forall k | 0 <= k < |ps| ensures DecidedChild(db, r, cs[k], ps[k]) {
      PreparedDecided(db, r, cs, cs[k], share, available.Some?);
    }
  }

  lemma DecidedMatches(db: Db, r: TaskId, doc: PlanDoc, ps: seq<Prepared>, root: Root)
    requires r in db.roots && Decided(db, r, doc, ps) && WellShaped(doc, db.roots[r].maxChildren)
    requires root.plans == db.roots[r].plans + [PlanRow(true, doc)]
    ensures Matches(root, ps)
    ensures forall i, j :: 0 <= i < j < |ps| ==> ps[i].child.id != ps[j].child.id
  {
    var cs := Arranged(doc.children);
    forall k | 0 <= k < |ps| ensures ps[k].child == cs[k] {
      assert DecidedChild(db, r, cs[k], ps[k]);
    }
    hide DecidedChild, Acyclic, OrdersContiguous, Arranged;
    PlanGraphClosed(doc.children);
    ArrangedNamed(doc.children);
    hide ChildShaped, Closed, PlanGraph;
    var g := PlanGraph(doc.children);
    forall id | id in g ensures exists k :: 0 <= k < |ps| && ps[k].child.id == id {
      assert Knows(cs, id);
      var k :| 0 <= k < |cs| && cs[k].id == id;
      assert ps[k].child.id == id;
    }
  }

  // -------------------------------------------------------------------- acceptance

  /** Identifiers the next row may not clash with. */
  lemma KnownReferences(cfg: Config, db: Db)
    requires Inv(cfg, db)
    ensures forall t :: t in db.tasks ==> t < db.nextId
    ensures forall c :: c in db.children ==> c.task in db.tasks && c.root in db.roots
    ensures forall a :: a in db.attempts ==> db.attempts[a].task in db.tasks
    ensures forall r :: r in db.roots ==> r in db.tasks
    ensures forall t :: t in db.intents ==> t < db.nextId
  {
    hide Inv;
    KnownIds(cfg, db);
    KnownTasks(cfg, db);
    InvReferences(cfg, db);
    InvRootsSound(cfg, db);
    forall c | c in db.children ensures c.task in db.tasks && c.root in db.roots {
      KnownChild(cfg, db, c);
    }
    forall t | t in db.intents ensures t < db.nextId {
      assert IntentSound(db, t, db.intents[t]);
    }
  }

  lemma InvRootsSound(cfg: Config, db: Db)
    requires Inv(cfg, db)
    ensures RootsSound(db.tasks, db.roots)
  {
  }

  /** The open children of a workflow, all of them. */
  ghost predicate AllOpen(db: Db, r: TaskId, ids: seq<TaskId>) {
    Ascends(ids) && forall t :: t in ids <==> IsOpenChild(db, r, t)
  }

  lemma OpenListed(cfg: Config, db: Db, r: TaskId)
    requires Inv(cfg, db)
    ensures AllOpen(db, r, OpenChildren(db, r))
  {
    hide Inv, IsOpenChild;
    KnownIds(cfg, db);
    forall t | IsOpenChild(db, r, t) ensures t in OpenChildren(db, r) {
      assert t in db.tasks by { OpenKnown(db, r, t); }
    }
  }

  lemma OpenKnown(db: Db, r: TaskId, t: TaskId)
    requires IsOpenChild(db, r, t)
    ensures t in db.tasks
  {
  }

  lemma NoneOpen(cfg: Config, db: Db, r: TaskId)
    requires Inv(cfg, db) && r in db.roots && db.roots[r].planRevision == 0
    ensures AllOpen(db, r, [])
  {
    hide Inv;
    forall t ensures !IsChild(db.children, r, t) {
      if IsChild(db.children, r, t) {
        var c :| c in db.children && c.root == r && c.task == t;
        KnownChild(cfg, db, c);
        assert false;
      }
    }
  }

  lemma CarriedKept(db: Db, x: Db, f: Db, r: TaskId, ids: seq<TaskId>, p: Prepared, c: Child)
    requires AllOpen(db, r, ids) && RetiredSet(db, x, ids) && FilledFrame(x, f) && r in db.roots
    requires p.carried.Some? && p.carried == CarrySource(db, r, p.child.id, db.roots[r].planRevision)
    requires c.root == r && c.key == p.child.id && c.task == p.carried.value.task
    ensures CarriedFrom(f.tasks, db.children, c) && c.task in x.tasks
  {
    assert c.task !in ids;
  }

  lemma FreshKept(db: Db, x: Db, f: Db, p: Prepared, c: Child)
    requires x.nextId == db.nextId && db.nextId <= c.task && c.task in f.tasks && f.tasks[c.task] == NewTask(p.spec, x.clock)
    requires forall t :: t in db.tasks ==> t < db.nextId
    requires forall d :: d in db.children ==> d.task in db.tasks
    ensures FreshFor(f.tasks, db.children, c, p.spec)
  {
  }

  lemma FilledIssues(cfg: Config, db: Db, x: Db, f: Db, r: TaskId, doc: PlanDoc, ids: seq<TaskId>, revision: nat,
                     ps: seq<Prepared>, more: seq<Child>)
    requires Inv(cfg, db) && r in db.roots && AllOpen(db, r, ids) && RetiredSet(db, x, ids)
    requires Filled(x, f, r, revision, ps, more) && Decided(db, r, doc, ps)
    requires forall i, j :: 0 <= i < j < |ps| ==> ps[i].child.id != ps[j].child.id
    ensures Issue(f.tasks, db.children, more, r, revision, ps)
  {
    hide Inv, RetiredSet, AllOpen, FilledFrame, Arranged, CarriedFrom, FreshFor, CarrySource, ValidSpec, WithinAuthority;
    KnownReferences(cfg, db);
    RetiredFrame(db, x, ids);
    forall k | 0 <= k < |more| ensures IssuedRow(f.tasks, db.children, more[k], ps[k], r, revision, k) {
      assert FilledRow(x, f, more[k], ps[k], r, revision, k);
      assert DecidedChild(db, r, Arranged(doc.children)[k], ps[k]);
      if ps[k].carried.Some? {
        CarriedKept(db, x, f, r, ids, ps[k], more[k]);
      } else {
        FreshKept(db, x, f, ps[k], more[k]);
      }
    }
    forall k | 0 <= k < |more| ensures more[k].key == ps[k].child.id {
      assert FilledRow(x, f, more[k], ps[k], r, revision, k);
    }
  }

  lemma RetiredFrame(db: Db, x: Db, ids: seq<TaskId>)
    requires RetiredSet(db, x, ids)
    ensures x.nextId == db.nextId && x.clock == db.clock && x.children == db.children && x.roots == db.roots
    ensures x.tasks.Keys == db.tasks.Keys && x.attempts.Keys == db.attempts.Keys && x.transfers == db.transfers
  {
  }

  lemma ReplacedAll(cfg: Config, db: Db, x: Db, f: Db, r: TaskId, ids: seq<TaskId>)
    requires Inv(cfg, db) && AllOpen(db, r, ids) && RetiredSet(db, x, ids) && FilledFrame(x, f)
    ensures Replaced(f.tasks, db.children, r)
  {
    hide Inv;
    KnownReferences(cfg, db);
    forall c | c in db.children && c.root == r && c.task in f.tasks
      ensures Terminal(f.tasks[c.task].status) || f.tasks[c.task].desired.Cancel?
    {
      assert IsChild(db.children, r, c.task);
      assert c.task in ids <==> IsOpenChild(db, r, c.task);
    }
  }

  /** Inserted tasks belong to no workflow until their rows join. */
  lemma FilledCommitments(cfg: Config, db: Db, x: Db, f: Db, r: TaskId)
    requires Inv(cfg, db) && x.children == db.children && x.tasks.Keys == db.tasks.Keys && x.nextId == db.nextId && FilledFrame(x, f)
    ensures Commitments(f.tasks, db.children, r) == Commitments(x.tasks, x.children, r)
  {
    hide Inv;
    KnownReferences(cfg, db);
    forall t | t in f.tasks && IsChild(db.children, r, t) ensures t in x.tasks && f.tasks[t] == x.tasks[t] {
      var c :| c in db.children && c.root == r && c.task == t;
    }
    hide IsChild, Commitment;
  }

  lemma InvAccounted(cfg: Config, db: Db, r: TaskId)
    requires Inv(cfg, db) && r in db.roots
    ensures db.roots[r].tokensUsed == Sum(ChildUsage(db.tasks, db.children, r))
    ensures db.roots[r].attemptsUsed == |ChildAttempts(db.attempts, db.children, r)| <= db.roots[r].maxAttempts
    ensures db.roots[r].planRevision <= |db.roots[r].plans|
  {
  }

  lemma FreshUnattempted(cfg: Config, db: Db, x: Db, f: Db, r: TaskId, revision: nat, ps: seq<Prepared>, more: seq<Child>)
    requires Inv(cfg, db) && Inv(cfg, x) && Filled(x, f, r, revision, ps, more)
    requires x.nextId == db.nextId && x.roots == db.roots
    ensures forall c :: c in more && !c.carried ==> !Attempted(f.attempts, c.task) && c.task !in f.roots && c.task !in f.intents
  {
    hide Inv;
    KnownReferences(cfg, x);
    forall c | c in more && !c.carried ensures !Attempted(f.attempts, c.task) && c.task !in f.roots && c.task !in f.intents {
      var k :| 0 <= k < |more| && more[k] == c;
      assert FilledRow(x, f, more[k], ps[k], r, revision, k);
    }
  }

  lemma DecidedNarrow(db: Db, r: TaskId, doc: PlanDoc, ps: seq<Prepared>, root: Root)
    requires r in db.roots && Decided(db, r, doc, ps)
    requires root.authority == db.roots[r].authority && root.maxTokens == db.roots[r].maxTokens
    ensures Narrow(ps, root)
  {
    hide WithinAuthority, ValidSpec, CarrySource, Arranged, OrdersContiguous;
    forall k | 0 <= k < |ps| ensures DecidedChild(db, r, Arranged(doc.children)[k], ps[k]) {}
  }

  function AcceptedRoot(root: Root, doc: PlanDoc, replan: bool): Root {
    root.(state := Executing, planRevision := |root.plans| + 1, reason := None,
          iteration := root.iteration + if replan then 1 else 0,
          plans := root.plans + [PlanRow(true, doc)])
  }

  lemma AcceptedCharge(root: Root, doc: PlanDoc, replan: bool)
    requires root.planRevision <= |root.plans|
    ensures ChargedTo(root, AcceptedRoot(root, doc, replan))
  {
  }

  lemma AcceptJoins(cfg: Config, db: Db, x: Db, f: Db, r: TaskId, doc: PlanDoc, replan: bool, ids: seq<TaskId>,
                    ps: seq<Prepared>, more: seq<Child>)
    requires Inv(cfg, db) && Inv(cfg, x) && r in db.roots && AllOpen(db, r, ids) && RetiredSet(db, x, ids)
    requires Decided(db, r, doc, ps) && WellShaped(doc, db.roots[r].maxChildren)
    requires Filled(x, f, r, |db.roots[r].plans| + 1, ps, more)
    requires db.roots[r].maxTokens.Some? ==>
      Requested(ps) <= db.roots[r].maxTokens.value - db.roots[r].tokensUsed - HeldTokens(db, ids)
    ensures Joinable(TasksOnly(x, f), more, r, AcceptedRoot(db.roots[r], doc, replan), ps)
  {
    hide Inv, Decided, WellShaped, Issue, Narrow, Matches, Replaced, Commitments, Sum, Attempted, ChildUsage;
    var root := AcceptedRoot(db.roots[r], doc, replan);
    RetiredFrame(db, x, ids);
    InvAccounted(cfg, db, r);
    AcceptedCharge(db.roots[r], doc, replan);
    DecidedMatches(db, r, doc, ps, root);
    DecidedNarrow(db, r, doc, ps, root);
    FilledIssues(cfg, db, x, f, r, doc, ids, root.planRevision, ps, more);
    ReplacedAll(cfg, db, x, f, r, ids);
    FreshUnattempted(cfg, db, x, f, r, root.planRevision, ps, more);
    RetiredCommitments(db, x, r, ids);
    FilledCommitments(cfg, db, x, f, r);
    hide RetiredSet, AllOpen;
  }

  lemma DecidedInsertable(cfg: Config, db: Db, x: Db, r: TaskId, doc: PlanDoc, ps: seq<Prepared>)
    requires r in db.roots && Decided(db, r, doc, ps) && x.tasks.Keys == db.tasks.Keys
    ensures forall p :: p in ps ==> Insertable(x, p)
  {
    hide WithinAuthority, ValidSpec, Arranged, OrdersContiguous;
    forall p | p in ps ensures Insertable(x, p) {
      var k :| 0 <= k < |ps| && ps[k] == p;
      assert DecidedChild(db, r, Arranged(doc.children)[k], p);
    }
  }

  lemma AcceptKeeps(cfg: Config, db: Db, r: TaskId, doc: PlanDoc, replan: bool)
    requires Inv(cfg, db) && r in db.roots && (replan || db.roots[r].planRevision == 0)
    requires PreparePlan(db, r, doc, replan).Some?
    ensures var db1 := AcceptPlan(db, r, doc, replan, PreparePlan(db, r, doc, replan).value).0; Inv(cfg, db1) && Advances(db, db1)
  {
    hide Inv, Advances, PreparePlan, Joinable, RetiredSet, AllOpen, Decided, WellShaped, Filled;
    var ps := PreparePlan(db, r, doc, replan).value;
    var ids := if replan then OpenChildren(db, r) else [];
    var revision := |db.roots[r].plans| + 1;
    PlanDecided(db, r, doc, replan);
    ReplacedKeeps(cfg, db, r, replan, ids);
    var x := RetireAll(db, ids);
    RetiredFrame(db, x, ids);
    DecidedInsertable(cfg, db, x, r, doc, ps);
    FilledKeeps(cfg, x, r, revision, ps);
    KnownIds(cfg, x);
    var more := FilledShape(x, r, revision, ps);
    var f := InsertChildren(x, r, revision, ps).0;
    var z := TasksOnly(x, f);
    AcceptJoins(cfg, db, x, f, r, doc, replan, ids, ps, more);
    FilledChildren(x, f, r, revision, ps, more);
    JoinKeeps(cfg, z, more, r, AcceptedRoot(db.roots[r], doc, replan), ps);
    AcceptComposes(cfg, db, x, f, r, doc, replan, ps, more);
  }

  lemma FilledChildren(x: Db, f: Db, r: TaskId, revision: nat, ps: seq<Prepared>, more: seq<Child>)
    requires Filled(x, f, r, revision, ps, more)
    ensures f.children == x.children + more
  {
  }

  lemma ReplacedKeeps(cfg: Config, db: Db, r: TaskId, replan: bool, ids: seq<TaskId>)
    requires Inv(cfg, db) && r in db.roots && (replan || db.roots[r].planRevision == 0)
    requires ids == if replan then OpenChildren(db, r) else []
    ensures forall t :: t in ids ==> t in db.tasks
    ensures AllOpen(db, r, ids) && RetiredSet(db, RetireAll(db, ids), ids)
    ensures Inv(cfg, RetireAll(db, ids)) && Advances(db, RetireAll(db, ids))
  {
    hide Inv, Advances, RetiredSet;
    if replan {
      OpenListed(cfg, db, r);
    } else {
      NoneOpen(cfg, db, r);
    }
    RetireAllKeeps(cfg, db, ids);
    RetireAllShape(cfg, db, ids);
  }

  lemma AcceptComposes(cfg: Config, db: Db, x: Db, f: Db, r: TaskId, doc: PlanDoc, replan: bool, ps: seq<Prepared>, more: seq<Child>)
    requires Inv(cfg, db) && r in db.roots && forall t :: t in (if replan then OpenChildren(db, r) else []) ==> t in db.tasks
    requires x == RetireAll(db, if replan then OpenChildren(db, r) else [])
    requires f == InsertChildren(x, r, |db.roots[r].plans| + 1, ps).0 && f.children == x.children + more && x.roots == db.roots
    requires Advances(db, x) && Advances(x, TasksOnly(x, f)) && Inv(cfg, TasksOnly(x, f))
    requires var z := TasksOnly(x, f);
             var y := z.(children := z.children + more, roots := z.roots[r := AcceptedRoot(db.roots[r], doc, replan)]);
             Inv(cfg, y) && Advances(z, y)
    ensures Inv(cfg, AcceptPlan(db, r, doc, replan, ps).0) && Advances(db, AcceptPlan(db, r, doc, replan, ps).0)
  {
    hide Inv, Advances, RetireAll, OpenChildren;
    var z := TasksOnly(x, f);
    var y := z.(children := z.children + more, roots := z.roots[r := AcceptedRoot(db.roots[r], doc, replan)]);
    AdvancesTransitive(cfg, db, x, z);
    AdvancesTransitive(cfg, db, z, y);
    RootTask(cfg, y, r);
    LogKeeps(cfg, y, r, PlanAccepted);
    AdvancesTransitive(cfg, db, y, Log(y, r, PlanAccepted));
    assert f.roots == db.roots;
    assert f.(roots := db.roots[r := AcceptedRoot(db.roots[r], doc, replan)]) == y;
  }

  lemma RootTask(cfg: Config, db: Db, r: TaskId)
    requires Inv(cfg, db) && r in db.roots
    ensures r in db.tasks
  {
    hide Inv;
    InvRootsSound(cfg, db);
  }

  // ------------------------------------------------------------- every plan decision

  lemma GrownPlans(roots: map<TaskId, Root>, rows: seq<Child>, r: TaskId, root: Root)
    requires Plans(roots, rows) && r in roots && PlansGrow(roots[r], root)
    ensures Plans(roots[r := root], rows)
  {
    hide Planned;
    forall c | c in rows ensures c.root in roots && Planned(roots[r := root][c.root], rows, c) {
      OldPlanned(roots[c.root], roots[r := root][c.root], rows, [], c);
      assert rows + [] == rows;
    }
  }

  lemma GrownSound(tasks: map<TaskId, Task>, roots: map<TaskId, Root>, rows: seq<Child>, r: TaskId, root: Root)
    requires RootsSound(tasks, roots) && ChildrenSound(tasks, roots, rows) && r in roots && PlansGrow(roots[r], root)
    ensures RootsSound(tasks, roots[r := root]) && ChildrenSound(tasks, roots[r := root], rows)
  {
    hide WithinAuthority;
    forall c | c in rows ensures c.root in roots && ChildSound(tasks[c.task], roots[r := root][c.root], c) {
      assert ChildSound(tasks[c.task], roots[c.root], c);
    }
  }

  lemma GrownTotals(tasks: map<TaskId, Task>, attempts: map<AttemptId, Attempt>, roots: map<TaskId, Root>, rows: seq<Child>, r: TaskId, root: Root)
    requires RootsAccounted(tasks, attempts, roots, rows) && Allocated(tasks, roots, rows) && r in roots && PlansGrow(roots[r], root)
    ensures RootsAccounted(tasks, attempts, roots[r := root], rows) && Allocated(tasks, roots[r := root], rows)
  {
    hide ChildUsage, ChildAttempts, Commitments, Sum;
  }

  /** Only the list of recorded plans and the workflow's state may differ. */
  predicate PlansGrow(x: Root, y: Root) {
    && y.tokensUsed == x.tokensUsed && y.attemptsUsed == x.attemptsUsed && y.planRevision == x.planRevision
    && y.authority == x.authority && y.maxTokens == x.maxTokens && y.maxAttempts == x.maxAttempts
    && x.plans <= y.plans
  }

  lemma PlansGrowKeeps(cfg: Config, db: Db, r: TaskId, root: Root)
    requires Inv(cfg, db) && r in db.roots && PlansGrow(db.roots[r], root)
    ensures var db1 := db.(roots := db.roots[r := root]); Inv(cfg, db1) && Advances(db, db1)
  {
    hide Rows, Linked, Outcomes, Numbered, Limited, Accounted, Reserved, RootsSound, ChildrenSound, Distinct;
    hide RootsAccounted, Allocated, Plans, Gated, Sent, Referenced;
    GrownPlans(db.roots, db.children, r, root);
    GrownSound(db.tasks, db.roots, db.children, r, root);
    GrownTotals(db.tasks, db.attempts, db.roots, db.children, r, root);
    RootReferences(db, r, root);
  }

  lemma RejectedKeeps(cfg: Config, db: Db, r: TaskId, doc: PlanDoc)
    requires Inv(cfg, db) && r in db.roots
    ensures Inv(cfg, RecordRejected(db, r, doc)) && Advances(db, RecordRejected(db, r, doc))
  {
    hide Inv, Advances;
    var db1 := db.(roots := RecordRejected(db, r, doc).roots);
    RootTask(cfg, db, r);
    PlansGrowKeeps(cfg, db, r, db1.roots[r]);
    LogKeeps(cfg, db1, r, PlanRejected);
    AdvancesTransitive(cfg, db, db1, RecordRejected(db, r, doc));
  }

  lemma SettlePlanKeeps(cfg: Config, db: Db, r: TaskId, doc: PlanDoc, replan: bool)
    requires Inv(cfg, db) && r in db.roots
    ensures Inv(cfg, SettlePlan(db, r, doc, replan).0) && Advances(db, SettlePlan(db, r, doc, replan).0)
  {
    hide Inv, Advances, PreparePlan, AcceptPlan, RecordRejected;
    if !replan && db.roots[r].planRevision > 0 {
      RootTask(cfg, db, r);
      LogKeeps(cfg, db, r, PlanIgnored);
    } else if PreparePlan(db, r, doc, replan).None? {
      RejectedKeeps(cfg, db, r, doc);
    } else {
      AcceptKeeps(cfg, db, r, doc, replan);
    }
  }

  lemma SettlePlanCommandKeeps(cfg: Config, db: Db, r: TaskId, doc: PlanDoc, replan: bool, key: Option<Label>)
    requires Inv(cfg, db)
    ensures var db1 := SettlePlanCommand(db, r, doc, replan, key).0; Inv(cfg, db1) && Advances(db, db1)
  {
    hide Inv, Advances, SettlePlan;
    var (result, outcome) := SettlePlanCommand(db, r, doc, replan, key);
    if result == db {
      AdvancesReflexive(db);
    } else {
      var (db1, receipt) := SettlePlan(db, r, doc, replan);
      SettlePlanKeeps(cfg, db, r, doc, replan);
      if key.Some? {
        RootKnown(cfg, db, db1, r);
        var c := Command(r, PlanPayload(replan, r, doc), db.clock, Some(receipt));
        RecordKeeps(cfg, db1, key.value, c);
        AdvancesTransitive(cfg, db, db1, Record(db1, key.value, c));
      }
    }
  }

  lemma RootKnown(cfg: Config, db: Db, db1: Db, r: TaskId)
    requires Inv(cfg, db) && r in db.roots && Advances(db, db1)
    ensures r < db1.nextId
  {
    hide Inv;
    KnownReferences(cfg, db);
  }
}
