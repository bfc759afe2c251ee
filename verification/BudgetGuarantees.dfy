/** A bounded workflow's tokens: what is used, what open children may still use, and overshoot. */
module BudgetGuarantees {
  import opened Types
  import opened Sums
  import opened StoreOps
  import opened WorkflowOps
  import opened System
  import opened Invariant
  import opened PairProofs
  import opened TaskProofs
  import opened StoreProofs
  import opened SettleProofs
  import opened ScheduleProofs
  import opened RetireProofs
  import opened PlanShapes
  import opened RevisionProofs
  import opened PlanProofs
  import opened RunProofs
  import opened RunGuarantees

  /** What an open child may still use of its own ceiling. */
  function Remaining(task: Task): int {
    if Terminal(task.status) then 0 else Unspent(task)
  }

  /** What a child used beyond its own ceiling. */
  function Overshoot(task: Task): int {
    var ceiling := task.spec.budget.maxTokens.GetOr(0);
    if task.tokensUsed > ceiling then task.tokensUsed - ceiling else 0
  }

  ghost function AllRemaining(tasks: map<TaskId, Task>, rows: seq<Child>, r: TaskId): map<TaskId, int> {
    map t | t in tasks && IsChild(rows, r, t) :: Remaining(tasks[t])
  }

  ghost function AllOvershoot(tasks: map<TaskId, Task>, rows: seq<Child>, r: TaskId): map<TaskId, int> {
    map t | t in tasks && IsChild(rows, r, t) :: Overshoot(tasks[t])
  }

  lemma CommitmentSplits(task: Task)
    ensures task.tokensUsed + Remaining(task) == Commitment(task) + Overshoot(task)
  {
  }

  /** Used tokens and remaining allowances are the commitments plus the overshoot. */
  lemma CommitmentsSplit(tasks: map<TaskId, Task>, rows: seq<Child>, r: TaskId)
    ensures Sum(ChildUsage(tasks, rows, r)) + Sum(AllRemaining(tasks, rows, r))
            == Sum(Commitments(tasks, rows, r)) + Sum(AllOvershoot(tasks, rows, r))
  {
    hide IsChild, Commitment, Remaining, Overshoot;
    var used, rest := ChildUsage(tasks, rows, r), AllRemaining(tasks, rows, r);
    var bound, over := Commitments(tasks, rows, r), AllOvershoot(tasks, rows, r);
    var both := map t | t in tasks && IsChild(rows, r, t) :: tasks[t].tokensUsed + Remaining(tasks[t]);
    forall t | t in tasks ensures tasks[t].tokensUsed + Remaining(tasks[t]) == Commitment(tasks[t]) + Overshoot(tasks[t]) {
      CommitmentSplits(tasks[t]);
    }
    SumAdd(used, rest, both);
    SumAdd(bound, over, both);
  }

  lemma InvAllocated(cfg: Config, db: Db, r: TaskId)
    requires Inv(cfg, db) && r in db.roots && db.roots[r].maxTokens.Some?
    ensures Sum(Commitments(db.tasks, db.children, r)) <= db.roots[r].maxTokens.value
  {
  }

  /** Over every run, with any number of plans, replans, retries and settlements: what a bounded
      workflow has used and what its open children may still use together exceed its tokens at
      most by what children overshot their own ceilings. */
  lemma WorkflowTokens(cfg: Config, steps: seq<Step>, r: TaskId)
    requires var db := Reached(cfg, steps).db; r in db.roots && db.roots[r].maxTokens.Some?
    ensures var db := Reached(cfg, steps).db;
            db.roots[r].tokensUsed + Sum(AllRemaining(db.tasks, db.children, r))
            <= db.roots[r].maxTokens.value + Sum(AllOvershoot(db.tasks, db.children, r))
  {
    hide Reached, Inv, ChildUsage, ChildAttempts, AllRemaining, AllOvershoot, Commitments, Sum;
    ReachedSound(cfg, steps);
    var db := Reached(cfg, steps).db;
    InvAccounted(cfg, db, r);
    InvAllocated(cfg, db, r);
    CommitmentsSplit(db.tasks, db.children, r);
  }

  lemma {:induction false} SumNonnegative(m: map<nat, int>)
    requires forall k :: k in m ==> m[k] >= 0
    ensures Sum(m) >= 0
    decreases |m|
  {
    if m != map[] {
      var k :| k in m;
      SumRemove(m, k);
      SumNonnegative(m - {k});
    }
  }

  /** If no child overshoots its own ceiling, the workflow never exceeds its tokens. */
  lemma WithinWorkflowTokens(cfg: Config, steps: seq<Step>, r: TaskId)
    requires var db := Reached(cfg, steps).db;
             && r in db.roots && db.roots[r].maxTokens.Some?
             && forall t :: t in db.tasks && IsChild(db.children, r, t) ==> Overshoot(db.tasks[t]) == 0
    ensures Reached(cfg, steps).db.roots[r].tokensUsed <= Reached(cfg, steps).db.roots[r].maxTokens.value
  {
    hide Reached, Inv, IsChild, Overshoot;
    var db := Reached(cfg, steps).db;
    WorkflowTokens(cfg, steps, r);
    ZeroTotal(AllOvershoot(db.tasks, db.children, r));
    SumNonnegative(AllRemaining(db.tasks, db.children, r));
  }

  // ------------------------------------------------------- right after an accepted plan

  lemma FreshRemaining(tasks: map<TaskId, Task>, rows: seq<Child>, c: Child)
    requires c.task in tasks && !IsChild(rows, c.root, c.task) && tasks[c.task].tokensUsed == 0 && tasks[c.task].status.Pending?
    requires ValidSpec(tasks[c.task].spec)
    ensures Sum(AllRemaining(tasks, rows + [c], c.root))
            == Sum(AllRemaining(tasks, rows, c.root)) + tasks[c.task].spec.budget.maxTokens.GetOr(0)
  {
    hide IsChild;
    var rest := AllRemaining(tasks, rows, c.root);
    forall t | t in tasks ensures IsChild(rows + [c], c.root, t) == (IsChild(rows, c.root, t) || t == c.task) {
      ChildMore(rows, c, c.root, t);
    }
    assert AllRemaining(tasks, rows + [c], c.root) == rest[c.task := Remaining(tasks[c.task])];
    SumSet(rest, c.task, Remaining(tasks[c.task]));
  }

  lemma CarriedRemaining(tasks: map<TaskId, Task>, rows: seq<Child>, c: Child)
    requires IsChild(rows, c.root, c.task)
    ensures AllRemaining(tasks, rows + [c], c.root) == AllRemaining(tasks, rows, c.root)
  {
    hide IsChild, Remaining;
    forall t | t in tasks ensures IsChild(rows + [c], c.root, t) == IsChild(rows, c.root, t) {
      ChildMore(rows, c, c.root, t);
    }
  }

  lemma {:induction false} IssuedRemaining(tasks: map<TaskId, Task>, rows: seq<Child>, more: seq<Child>, r: TaskId, revision: nat,
                                           ps: seq<Prepared>, k: nat)
    requires Issue(tasks, rows, more, r, revision, ps) && k <= |more|
    requires forall p :: p in ps ==> ValidSpec(p.spec)
    ensures Sum(AllRemaining(tasks, rows + more[..k], r)) == Sum(AllRemaining(tasks, rows, r)) + Requested(ps[..k])
  {
    hide ValidSpec;
    if k == 0 {
      assert rows + more[..0] == rows;
    } else {
      var c := more[k - 1];
      IssuedRemaining(tasks, rows, more, r, revision, ps, k - 1);
      assert IssuedRow(tasks, rows, c, ps[k - 1], r, revision, k - 1);
      assert rows + more[..k] == rows + more[..k - 1] + [c];
      assert ps[..k][..k - 1] == ps[..k - 1];
      if c.carried {
        ChildOfOld(rows, more[..k - 1], r, c.task);
        CarriedRemaining(tasks, rows + more[..k - 1], c);
      } else {
        NotYetChild(tasks, rows, more, r, revision, ps, k - 1);
        FreshRemaining(tasks, rows + more[..k - 1], c);
      }
    }
  }

  /** Retiring leaves open only launched children, each holding what it may still spend. */
  lemma RetiredRemaining(db: Db, x: Db, r: TaskId, ids: seq<TaskId>)
    requires RetiredSet(db, x, ids) && AllOpen(db, r, ids)
    ensures Sum(AllRemaining(x.tasks, x.children, r)) == HeldTokens(db, ids)
  {
    HoldingsTotal(db, r, ids);
    forall t | t in db.tasks && IsChild(db.children, r, t) ensures Remaining(x.tasks[t]) == Holding(db, ids, t) {
      assert t in ids <==> IsOpenChild(db, r, t);
    }
    hide IsChild, Remaining, Holding;
    assert AllRemaining(x.tasks, x.children, r) == Holdings(db, r, ids);
  }

  lemma FilledRemaining(cfg: Config, db: Db, x: Db, f: Db, r: TaskId)
    requires Inv(cfg, db) && x.children == db.children && x.tasks.Keys == db.tasks.Keys && x.nextId == db.nextId && FilledFrame(x, f)
    ensures AllRemaining(f.tasks, db.children, r) == AllRemaining(x.tasks, x.children, r)
  {
    hide Inv;
    KnownReferences(cfg, db);
    forall t | t in f.tasks && IsChild(db.children, r, t) ensures t in x.tasks && f.tasks[t] == x.tasks[t] {
      var c :| c in db.children && c.root == r && c.task == t;
    }
    hide IsChild, Remaining;
  }

  lemma DecidedValid(db: Db, r: TaskId, doc: PlanDoc, ps: seq<Prepared>)
    requires r in db.roots && Decided(db, r, doc, ps)
    ensures forall p :: p in ps ==> ValidSpec(p.spec)
  {
    hide ValidSpec, WithinAuthority, Arranged, OrdersContiguous, CarrySource;
    forall p | p in ps ensures ValidSpec(p.spec) {
      var k :| 0 <= k < |ps| && ps[k] == p;
      assert DecidedChild(db, r, Arranged(doc.children)[k], p);
    }
  }

  /** Right after an accepted plan no overshoot allowance is needed: used tokens and all
      remaining allowances, old and new, fit the workflow. */
  lemma AcceptedPlanFits(cfg: Config, db: Db, r: TaskId, doc: PlanDoc, replan: bool)
    requires Inv(cfg, db) && r in db.roots && db.roots[r].maxTokens.Some? && (replan || db.roots[r].planRevision == 0)
    requires PreparePlan(db, r, doc, replan).Some?
    ensures var db1 := SettlePlan(db, r, doc, replan).0;
            r in db1.roots && db1.roots[r].maxTokens == db.roots[r].maxTokens
            && db1.roots[r].tokensUsed + Sum(AllRemaining(db1.tasks, db1.children, r)) <= db.roots[r].maxTokens.value
  {
    hide Inv, Advances, PreparePlan, Joinable, RetiredSet, AllOpen, Decided, WellShaped, AllRemaining, Sum, Requested, HeldTokens;
    var ps := PreparePlan(db, r, doc, replan).value;
    var ids := if replan then OpenChildren(db, r) else [];
    var revision := |db.roots[r].plans| + 1;
    PlanDecided(db, r, doc, replan);
    ReplacedKeeps(cfg, db, r, replan, ids);
    var x := RetireAll(db, ids);
    RetiredFrame(db, x, ids);
    KnownIds(cfg, x);
    var more := FilledShape(x, r, revision, ps);
    var f := InsertChildren(x, r, revision, ps).0;
    FitsParts(cfg, db, x, f, r, doc, ids, revision, ps, more);
    var db1 := SettlePlan(db, r, doc, replan).0;
    assert db1.tasks == f.tasks && db1.children == f.children;
  }

  lemma FitsParts(cfg: Config, db: Db, x: Db, f: Db, r: TaskId, doc: PlanDoc, ids: seq<TaskId>, revision: nat,
                  ps: seq<Prepared>, more: seq<Child>)
    requires Inv(cfg, db) && r in db.roots && AllOpen(db, r, ids) && RetiredSet(db, x, ids)
    requires Filled(x, f, r, revision, ps, more) && Decided(db, r, doc, ps) && WellShaped(doc, db.roots[r].maxChildren)
    ensures Sum(AllRemaining(f.tasks, f.children, r)) == HeldTokens(db, ids) + Requested(ps)
  {
    hide Inv, Decided, WellShaped, AllRemaining, Sum, Requested, HeldTokens, Issue, AllOpen, RetiredSet, Matches;
    RetiredFrame(db, x, ids);
    DecidedMatches(db, r, doc, ps, db.roots[r].(plans := db.roots[r].plans + [PlanRow(true, doc)]));
    FilledIssues(cfg, db, x, f, r, doc, ids, revision, ps, more);
    DecidedValid(db, r, doc, ps);
    IssuedRemaining(f.tasks, db.children, more, r, revision, ps, |more|);
    RetiredRemaining(db, x, r, ids);
    FilledRemaining(cfg, db, x, f, r);
    assert more[..|more|] == more && ps[..|ps|] == ps;
  }
}
