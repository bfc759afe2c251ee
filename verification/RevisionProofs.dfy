/** A new plan revision: its child rows join the tables together. */
module RevisionProofs {
  import opened Types
  import opened Sums
  import opened Graph
  import opened StoreOps
  import opened WorkflowOps
  import opened Invariant
  import opened PairProofs
  import opened TaskProofs
  import opened StoreProofs
  import opened SettleProofs
  import opened ScheduleProofs
  import opened PlanShapes

  /** A carried row repeats an older row of its key whose task succeeded. */
  predicate CarriedFrom(tasks: map<TaskId, Task>, rows: seq<Child>, c: Child) {
    && c.task in tasks && tasks[c.task].status.Succeeded?
    && exists d :: d in rows && d.root == c.root && d.key == c.key && d.task == c.task
  }

  /** A fresh row has a task of its own that nothing else refers to. */
  predicate FreshFor(tasks: map<TaskId, Task>, rows: seq<Child>, c: Child, spec: Spec) {
    && c.task in tasks && !Named(rows, c.task)
    && tasks[c.task].spec == spec && tasks[c.task].status.Pending? && tasks[c.task].tokensUsed == 0
  }

  predicate IssuedRow(tasks: map<TaskId, Task>, rows: seq<Child>, c: Child, p: Prepared, r: TaskId, revision: nat, k: nat) {
    && c.root == r && c.revision == revision && c.index == k && c.key == p.child.id
    && c.dependencies == p.child.dependencies && c.carried == p.carried.Some?
    && if c.carried then CarriedFrom(tasks, rows, c) else FreshFor(tasks, rows, c, p.spec)
  }

  /** The rows `new` issue the prepared children `ps` as one revision of `r`. */
  predicate Issue(tasks: map<TaskId, Task>, rows: seq<Child>, more: seq<Child>, r: TaskId, revision: nat, ps: seq<Prepared>) {
    && |more| == |ps|
    && (forall k :: 0 <= k < |more| ==> IssuedRow(tasks, rows, more[k], ps[k], r, revision, k))
    && (forall i, j :: 0 <= i < j < |more| && !more[i].carried && !more[j].carried ==> more[i].task != more[j].task)
    && (forall i, j :: 0 <= i < j < |more| ==> more[i].key != more[j].key)
  }

  // -------------------------------------------------------------------- uniqueness

  lemma OldNewAkin(tasks: map<TaskId, Task>, rows: seq<Child>, more: seq<Child>, r: TaskId, revision: nat, ps: seq<Prepared>, c: Child, k: nat)
    requires Issue(tasks, rows, more, r, revision, ps) && Distinct(rows) && c in rows && k < |more|
    requires c.root == r ==> c.revision < revision
    ensures Akin(c, more[k]) && Akin(more[k], c) && c != more[k]
  {
    assert IssuedRow(tasks, rows, more[k], ps[k], r, revision, k);
    if c.task == more[k].task {
      assert Named(rows, c.task);
      var d :| d in rows && d.root == r && d.key == more[k].key && d.task == c.task;
      assert Akin(c, d);
    }
  }

  lemma NewAkin(tasks: map<TaskId, Task>, rows: seq<Child>, more: seq<Child>, r: TaskId, revision: nat, ps: seq<Prepared>, i: nat, j: nat)
    requires Issue(tasks, rows, more, r, revision, ps) && Distinct(rows) && i < |more| && j < |more|
    ensures Akin(more[i], more[j])
  {
    assert IssuedRow(tasks, rows, more[i], ps[i], r, revision, i);
    assert IssuedRow(tasks, rows, more[j], ps[j], r, revision, j);
    if more[i].task == more[j].task && i != j {
      if more[i].carried && more[j].carried {
        SameSource(rows, more[i], more[j]);
      }
    }
  }

  lemma SameSource(rows: seq<Child>, c: Child, d: Child)
    requires Distinct(rows) && c.task == d.task
    requires exists x :: x in rows && x.root == c.root && x.key == c.key && x.task == c.task
    requires exists x :: x in rows && x.root == d.root && x.key == d.key && x.task == d.task
    ensures c.key == d.key
  {
    var x :| x in rows && x.root == c.root && x.key == c.key && x.task == c.task;
    var y :| y in rows && y.root == d.root && y.key == d.key && y.task == d.task;
    assert Akin(x, y);
  }

  lemma ExtendedDistinct(tasks: map<TaskId, Task>, rows: seq<Child>, more: seq<Child>, r: TaskId, revision: nat, ps: seq<Prepared>)
    requires Issue(tasks, rows, more, r, revision, ps) && Distinct(rows)
    requires forall c :: c in rows && c.root == r ==> c.revision < revision
    ensures Distinct(rows + more)
  {
    hide Issue, Akin;
    forall c, d | c in rows + more && d in rows + more ensures Akin(c, d) {
      ExtendedAkin(tasks, rows, more, r, revision, ps, c, d);
    }
    forall i, j | 0 <= i < j < |rows + more| ensures (rows + more)[i] != (rows + more)[j] {
      ExtendedDiffer(tasks, rows, more, r, revision, ps, i, j);
    }
  }

  lemma ExtendedAkin(tasks: map<TaskId, Task>, rows: seq<Child>, more: seq<Child>, r: TaskId, revision: nat, ps: seq<Prepared>, c: Child, d: Child)
    requires Issue(tasks, rows, more, r, revision, ps) && Distinct(rows) && c in rows + more && d in rows + more
    requires forall x :: x in rows && x.root == r ==> x.revision < revision
    ensures Akin(c, d)
  {
    hide Issue, Akin;
    if c in rows && d in rows {
    } else if c in rows {
      var k :| 0 <= k < |more| && more[k] == d;
      OldNewAkin(tasks, rows, more, r, revision, ps, c, k);
    } else if d in rows {
      var k :| 0 <= k < |more| && more[k] == c;
      OldNewAkin(tasks, rows, more, r, revision, ps, d, k);
    } else {
      var i :| 0 <= i < |more| && more[i] == c;
      var j :| 0 <= j < |more| && more[j] == d;
      NewAkin(tasks, rows, more, r, revision, ps, i, j);
    }
  }

  lemma ExtendedDiffer(tasks: map<TaskId, Task>, rows: seq<Child>, more: seq<Child>, r: TaskId, revision: nat, ps: seq<Prepared>, i: nat, j: nat)
    requires Issue(tasks, rows, more, r, revision, ps) && Distinct(rows) && i < j < |rows + more|
    requires forall c :: c in rows && c.root == r ==> c.revision < revision
    ensures (rows + more)[i] != (rows + more)[j]
  {
    if i < |rows| <= j {
      OldNewAkin(tasks, rows, more, r, revision, ps, rows[i], j - |rows|);
    } else if |rows| <= i {
      assert IssuedRow(tasks, rows, more[i - |rows|], ps[i - |rows|], r, revision, i - |rows|);
      assert IssuedRow(tasks, rows, more[j - |rows|], ps[j - |rows|], r, revision, j - |rows|);
    }
  }

  // ------------------------------------------------------------------------ totals

  lemma ChildMore(rows: seq<Child>, c: Child, r: TaskId, t: TaskId)
    ensures IsChild(rows + [c], r, t) <==> IsChild(rows, r, t) || (c.root == r && c.task == t)
  {
    if IsChild(rows, r, t) {
      var d :| d in rows && d.root == r && d.task == t;
      assert d in rows + [c];
    }
    if c.root == r && c.task == t {
      assert c in rows + [c];
    }
  }

  /** One row of a task the workflow already owns leaves its totals alone. */
  lemma CarriedTotals(tasks: map<TaskId, Task>, rows: seq<Child>, c: Child, r: TaskId)
    requires c.root == r ==> IsChild(rows, r, c.task)
    ensures Commitments(tasks, rows + [c], r) == Commitments(tasks, rows, r)
    ensures ChildUsage(tasks, rows + [c], r) == ChildUsage(tasks, rows, r)
  {
    hide IsChild, Commitment;
    forall t | t in tasks ensures IsChild(rows + [c], r, t) == IsChild(rows, r, t) {
      ChildMore(rows, c, r, t);
    }
  }

  lemma FreshTotals(tasks: map<TaskId, Task>, rows: seq<Child>, c: Child)
    requires c.task in tasks && !IsChild(rows, c.root, c.task) && tasks[c.task].tokensUsed == 0 && tasks[c.task].status.Pending?
    ensures Sum(Commitments(tasks, rows + [c], c.root))
            == Sum(Commitments(tasks, rows, c.root)) + tasks[c.task].spec.budget.maxTokens.GetOr(0)
    ensures Sum(ChildUsage(tasks, rows + [c], c.root)) == Sum(ChildUsage(tasks, rows, c.root))
  {
    hide IsChild;
    var bound, usage := Commitments(tasks, rows, c.root), ChildUsage(tasks, rows, c.root);
    forall t | t in tasks ensures IsChild(rows + [c], c.root, t) == (IsChild(rows, c.root, t) || t == c.task) {
      ChildMore(rows, c, c.root, t);
    }
    assert Commitments(tasks, rows + [c], c.root) == bound[c.task := Commitment(tasks[c.task])];
    SumSet(bound, c.task, Commitment(tasks[c.task]));
    assert ChildUsage(tasks, rows + [c], c.root) == usage[c.task := 0];
    SumSet(usage, c.task, 0);
  }

  lemma ChildOfOld(rows: seq<Child>, more: seq<Child>, r: TaskId, t: TaskId)
    requires IsChild(rows, r, t)
    ensures IsChild(rows + more, r, t)
  {
    var d :| d in rows && d.root == r && d.task == t;
    assert d in rows + more;
  }

  lemma NotYetChild(tasks: map<TaskId, Task>, rows: seq<Child>, more: seq<Child>, r: TaskId, revision: nat, ps: seq<Prepared>, k: nat)
    requires Issue(tasks, rows, more, r, revision, ps) && k < |more| && !more[k].carried
    ensures !IsChild(rows + more[..k], r, more[k].task)
  {
    assert IssuedRow(tasks, rows, more[k], ps[k], r, revision, k);
    forall d | d in rows + more[..k] && d.root == r ensures d.task != more[k].task {
      if d !in rows {
        var i :| 0 <= i < k && more[i] == d;
        assert IssuedRow(tasks, rows, more[i], ps[i], r, revision, i);
        assert d.carried ==> Named(rows, d.task);
      }
    }
  }

  /** A revision binds exactly what its fresh children request. */
  lemma {:induction false} IssuedTotals(tasks: map<TaskId, Task>, rows: seq<Child>, more: seq<Child>, r: TaskId, revision: nat,
                                        ps: seq<Prepared>, k: nat)
    requires Issue(tasks, rows, more, r, revision, ps) && k <= |more|
    ensures Sum(Commitments(tasks, rows + more[..k], r)) == Sum(Commitments(tasks, rows, r)) + Requested(ps[..k])
    ensures Sum(ChildUsage(tasks, rows + more[..k], r)) == Sum(ChildUsage(tasks, rows, r))
  {
    if k == 0 {
      assert rows + more[..0] == rows;
    } else {
      var c := more[k - 1];
      IssuedTotals(tasks, rows, more, r, revision, ps, k - 1);
      assert IssuedRow(tasks, rows, c, ps[k - 1], r, revision, k - 1);
      assert rows + more[..k] == rows + more[..k - 1] + [c];
      assert ps[..k][..k - 1] == ps[..k - 1];
      if c.carried {
        ChildOfOld(rows, more[..k - 1], r, c.task);
        CarriedTotals(tasks, rows + more[..k - 1], c, r);
      } else {
        NotYetChild(tasks, rows, more, r, revision, ps, k - 1);
        FreshTotals(tasks, rows + more[..k - 1], c);
      }
    }
  }

  lemma {:induction false} ForeignTotals(tasks: map<TaskId, Task>, rows: seq<Child>, more: seq<Child>, r: TaskId)
    requires forall c :: c in more ==> c.root != r
    ensures Commitments(tasks, rows + more, r) == Commitments(tasks, rows, r)
    ensures ChildUsage(tasks, rows + more, r) == ChildUsage(tasks, rows, r)
  {
    if more == [] {
      assert rows + more == rows;
    } else {
      var n := |more| - 1;
      ForeignTotals(tasks, rows, more[..n], r);
      assert rows + more == rows + more[..n] + [more[n]];
      CarriedTotals(tasks, rows + more[..n], more[n], r);
    }
  }

  /** Nobody has attempted a fresh child. */
  lemma IssuedAttempts(tasks: map<TaskId, Task>, attempts: map<AttemptId, Attempt>, rows: seq<Child>, more: seq<Child>,
                       r: TaskId, revision: nat, ps: seq<Prepared>, x: TaskId)
    requires Issue(tasks, rows, more, r, revision, ps)
    requires forall c :: c in more && !c.carried ==> !Attempted(attempts, c.task)
    ensures ChildAttempts(attempts, rows + more, x) == ChildAttempts(attempts, rows, x)
  {
    forall a | a in attempts ensures IsChild(rows + more, x, attempts[a].task) == IsChild(rows, x, attempts[a].task) {
      var t := attempts[a].task;
      assert Attempted(attempts, t);
      if IsChild(rows, x, t) {
        ChildOfOld(rows, more, x, t);
      } else {
        forall c | c in rows + more && c.root == x ensures c.task != t {
          if c !in rows {
            var k :| 0 <= k < |more| && more[k] == c;
            assert IssuedRow(tasks, rows, c, ps[k], r, revision, k);
            assert c.carried ==> IsChild(rows, x, c.task);
          }
        }
      }
    }
    hide IsChild;
  }

  lemma ExtendedTotals(tasks: map<TaskId, Task>, attempts: map<AttemptId, Attempt>, roots: map<TaskId, Root>, rows: seq<Child>,
                       more: seq<Child>, r: TaskId, root: Root, ps: seq<Prepared>)
    requires RootsAccounted(tasks, attempts, roots, rows) && Allocated(tasks, roots, rows) && r in roots
    requires ChargedTo(roots[r], root) && Issue(tasks, rows, more, r, root.planRevision, ps)
    requires forall c :: c in more && !c.carried ==> !Attempted(attempts, c.task)
    requires root.maxTokens.Some? ==> Sum(Commitments(tasks, rows, r)) + Requested(ps) <= root.maxTokens.value
    ensures RootsAccounted(tasks, attempts, roots[r := root], rows + more) && Allocated(tasks, roots[r := root], rows + more)
  {
    hide Commitments, ChildUsage, ChildAttempts, Sum;
    IssuedTotals(tasks, rows, more, r, root.planRevision, ps, |more|);
    assert more[..|more|] == more && ps[..|ps|] == ps;
    assert forall c :: c in more ==> c.root == r;
    hide Issue;
    forall x | x in roots
      ensures roots[r := root][x].tokensUsed == Sum(ChildUsage(tasks, rows + more, x))
      ensures roots[r := root][x].attemptsUsed == |ChildAttempts(attempts, rows + more, x)| <= roots[r := root][x].maxAttempts
      ensures roots[r := root][x].maxTokens.Some? ==> Sum(Commitments(tasks, rows + more, x)) <= roots[r := root][x].maxTokens.value
    {
      IssuedAttempts(tasks, attempts, rows, more, r, root.planRevision, ps, x);
      if x != r {
        ForeignTotals(tasks, rows, more, x);
      }
    }
  }

  /** A new revision leaves a root's counters and bounds alone. */
  predicate ChargedTo(x: Root, y: Root) {
    && y.tokensUsed == x.tokensUsed && y.attemptsUsed == x.attemptsUsed
    && y.authority == x.authority && y.maxTokens == x.maxTokens && y.maxAttempts == x.maxAttempts
    && x.planRevision < y.planRevision == |y.plans| && x.plans < y.plans
  }

  // ------------------------------------------------------------- rows of one revision

  /** Old children of the workflow no longer want to run. */
  ghost predicate Replaced(tasks: map<TaskId, Task>, rows: seq<Child>, r: TaskId) {
    forall c :: c in rows && c.root == r && c.task in tasks ==> Terminal(tasks[c.task].status) || tasks[c.task].desired.Cancel?
  }

  /** Fresh specifications fit the root. */
  ghost predicate Narrow(ps: seq<Prepared>, root: Root) {
    forall k :: 0 <= k < |ps| && ps[k].carried.None? ==>
      WithinAuthority(ps[k].spec, root.authority) && (root.maxTokens.Some? ==> ps[k].spec.budget.maxTokens.Some?)
  }

  lemma IssuedSound(tasks: map<TaskId, Task>, roots: map<TaskId, Root>, rows: seq<Child>, more: seq<Child>, r: TaskId, root: Root,
                    ps: seq<Prepared>, k: nat)
    requires ChildrenSound(tasks, roots, rows) && r in roots && ChargedTo(roots[r], root)
    requires Issue(tasks, rows, more, r, root.planRevision, ps) && Narrow(ps, root) && k < |more|
    requires !more[k].carried ==> more[k].task !in roots
    ensures var c := more[k]; c.root == r && c.task in tasks && c.task !in roots && ChildSound(tasks[c.task], root, c)
  {
    var c := more[k];
    assert IssuedRow(tasks, rows, c, ps[k], r, root.planRevision, k);
    hide WithinAuthority;
    if c.carried {
      var d :| d in rows && d.root == c.root && d.key == c.key && d.task == c.task;
      assert ChildSound(tasks[d.task], roots[d.root], d);
    }
  }

  lemma ExtendedSound(tasks: map<TaskId, Task>, roots: map<TaskId, Root>, rows: seq<Child>, more: seq<Child>, r: TaskId, root: Root, ps: seq<Prepared>)
    requires ChildrenSound(tasks, roots, rows) && r in roots && ChargedTo(roots[r], root)
    requires Issue(tasks, rows, more, r, root.planRevision, ps) && Narrow(ps, root) && Replaced(tasks, rows, r)
    requires forall c :: c in more && !c.carried ==> c.task !in roots
    ensures ChildrenSound(tasks, roots[r := root], rows + more)
  {
    hide Issue, Narrow, WithinAuthority;
    forall c | c in rows + more
      ensures c.root in roots && c.task in tasks && c.task !in roots && ChildSound(tasks[c.task], roots[r := root][c.root], c)
    {
      if c in rows {
        assert ChildSound(tasks[c.task], roots[c.root], c);
      } else {
        var k :| 0 <= k < |more| && more[k] == c;
        IssuedSound(tasks, roots, rows, more, r, root, ps, k);
      }
    }
  }

  // ------------------------------------------------------------------------- plans

  /** The last plan of the root names exactly the issued keys and dependencies. */
  ghost predicate Matches(root: Root, ps: seq<Prepared>) {
    && root.plans != []
    && var plan := root.plans[|root.plans| - 1];
       && plan.accepted && plan.doc.Plan?
       && var g := PlanGraph(plan.doc.children);
          && Acyclic(g) && Closed(g)
          && (forall k :: 0 <= k < |ps| ==> ps[k].child.id in g && g[ps[k].child.id] == (set d | d in ps[k].child.dependencies))
          && (forall id :: id in g ==> exists k :: 0 <= k < |ps| && ps[k].child.id == id)
  }

  lemma InRevisionMore(rows: seq<Child>, more: seq<Child>, r: TaskId, revision: nat, key: Label)
    requires InRevision(rows, r, revision, key)
    ensures InRevision(rows + more, r, revision, key)
  {
    var d :| d in rows && d.root == r && d.revision == revision && d.key == key;
    assert d in rows + more;
  }

  lemma OldPlanned(x: Root, y: Root, rows: seq<Child>, more: seq<Child>, c: Child)
    requires Planned(x, rows, c) && x.plans <= y.plans
    ensures Planned(y, rows + more, c)
  {
    hide InRevision, Acyclic, PlanGraph;
    var g := PlanGraph(x.plans[c.revision - 1].doc.children);
    forall k | k in g ensures InRevision(rows + more, c.root, c.revision, k) {
      InRevisionMore(rows, more, c.root, c.revision, k);
    }
  }

  lemma IssuedPlanned(tasks: map<TaskId, Task>, rows: seq<Child>, more: seq<Child>, r: TaskId, root: Root, ps: seq<Prepared>, k: nat)
    requires Issue(tasks, rows, more, r, root.planRevision, ps) && Matches(root, ps) && root.planRevision == |root.plans| && k < |more|
    ensures Planned(root, rows + more, more[k])
  {
    hide Acyclic, PlanGraph;
    assert IssuedRow(tasks, rows, more[k], ps[k], r, root.planRevision, k);
    var g := PlanGraph(root.plans[|root.plans| - 1].doc.children);
    forall id | id in g ensures InRevision(rows + more, r, root.planRevision, id) {
      var j :| 0 <= j < |ps| && ps[j].child.id == id;
      assert IssuedRow(tasks, rows, more[j], ps[j], r, root.planRevision, j);
      assert more[j] in rows + more;
    }
    hide InRevision;
  }

  lemma ExtendedPlans(tasks: map<TaskId, Task>, roots: map<TaskId, Root>, rows: seq<Child>, more: seq<Child>, r: TaskId, root: Root, ps: seq<Prepared>)
    requires Plans(roots, rows) && r in roots && ChargedTo(roots[r], root)
    requires Issue(tasks, rows, more, r, root.planRevision, ps) && Matches(root, ps)
    ensures Plans(roots[r := root], rows + more)
  {
    assert forall k :: 0 <= k < |more| ==> IssuedRow(tasks, rows, more[k], ps[k], r, root.planRevision, k);
    assert forall c :: c in more ==> c.root == r;
    hide Issue, Planned, Matches;
    forall c | c in rows + more ensures c.root in roots && Planned(roots[r := root][c.root], rows + more, c) {
      if c in rows {
        OldPlanned(roots[c.root], roots[r := root][c.root], rows, more, c);
      } else {
        var k :| 0 <= k < |more| && more[k] == c;
        IssuedPlanned(tasks, rows, more, r, root, ps, k);
      }
    }
  }

  lemma ExtendedGates(tasks: map<TaskId, Task>, attempts: map<AttemptId, Attempt>, rows: seq<Child>, more: seq<Child>,
                      transfers: map<(TaskId, TaskId), Transfer>, r: TaskId, revision: nat)
    requires Gated(tasks, attempts, rows, transfers)
    requires forall c :: c in more ==> c.root == r && c.revision == revision && (!c.carried ==> !Attempted(attempts, c.task))
    requires forall c :: c in rows && c.root == r ==> c.revision < revision
    ensures Gated(tasks, attempts, rows + more, transfers)
  {
    hide Attempted;
    forall c, d | c in rows + more && d in rows + more && !c.carried && DependsOn(c, d) && Attempted(attempts, c.task)
      ensures Satisfied(tasks, transfers, c, d)
    {
      assert c in rows && d in rows;
    }
  }

  lemma ExtendedReferences(db: Db, db1: Db, more: seq<Child>)
    requires Referenced(db) && db1 == db.(children := db.children + more, roots := db1.roots) && db1.roots.Keys == db.roots.Keys
    requires forall c :: c in more ==> c.task !in db.intents
    ensures Referenced(db1)
  {
    forall x | x in db1.intents ensures IntentSound(db1, x, db1.intents[x]) {
      assert IntentSound(db, x, db.intents[x]);
      if Named(db1.children, x) {
        var c :| c in db1.children && c.task == x;
        assert c in db.children;
      }
    }
  }

  /** What the issued rows must satisfy against the tables they join. */
  ghost predicate Joinable(db: Db, more: seq<Child>, r: TaskId, root: Root, ps: seq<Prepared>) {
    && r in db.roots && ChargedTo(db.roots[r], root)
    && Issue(db.tasks, db.children, more, r, root.planRevision, ps)
    && Narrow(ps, root) && Matches(root, ps) && Replaced(db.tasks, db.children, r)
    && (forall c :: c in more && !c.carried ==> !Attempted(db.attempts, c.task) && c.task !in db.roots && c.task !in db.intents)
    && (root.maxTokens.Some? ==> Sum(Commitments(db.tasks, db.children, r)) + Requested(ps) <= root.maxTokens.value)
  }

  lemma EarlierRevisions(tasks: map<TaskId, Task>, roots: map<TaskId, Root>, rows: seq<Child>, r: TaskId)
    requires ChildrenSound(tasks, roots, rows) && r in roots
    ensures forall c :: c in rows && c.root == r ==> c.revision <= roots[r].planRevision
  {
  }

  lemma JoinedRows(tasks: map<TaskId, Task>, rows: seq<Child>, more: seq<Child>, r: TaskId, revision: nat, ps: seq<Prepared>)
    requires Issue(tasks, rows, more, r, revision, ps)
    ensures forall c :: c in more ==> c.root == r && c.revision == revision
    ensures forall c :: c in more && c.carried ==> Named(rows, c.task)
  {
    forall c | c in more ensures c.root == r && c.revision == revision && (c.carried ==> Named(rows, c.task)) {
      var k :| 0 <= k < |more| && more[k] == c;
      assert IssuedRow(tasks, rows, c, ps[k], r, revision, k);
    }
  }

  lemma JoinFlow(cfg: Config, db: Db, more: seq<Child>, r: TaskId, root: Root, ps: seq<Prepared>)
    requires Flow(db) && Joinable(db, more, r, root, ps)
    ensures Flow(db.(children := db.children + more, roots := db.roots[r := root]))
  {
    hide RootsAccounted, Allocated, Plans, Gated, Sent, Issue, Narrow, Matches, Replaced, ChildrenSound, Distinct, Commitments, Sum, Attempted;
    EarlierRevisions(db.tasks, db.roots, db.children, r);
    JoinedRows(db.tasks, db.children, more, r, root.planRevision, ps);
    ExtendedDistinct(db.tasks, db.children, more, r, root.planRevision, ps);
    ExtendedTotals(db.tasks, db.attempts, db.roots, db.children, more, r, root, ps);
    ExtendedSound(db.tasks, db.roots, db.children, more, r, root, ps);
    ExtendedPlans(db.tasks, db.roots, db.children, more, r, root, ps);
    ExtendedGates(db.tasks, db.attempts, db.children, more, db.transfers, r, root.planRevision);
  }

  lemma JoinIntents(db: Db, more: seq<Child>, r: TaskId, root: Root, ps: seq<Prepared>)
    requires Referenced(db) && Joinable(db, more, r, root, ps)
    ensures forall c :: c in more ==> c.task !in db.intents
  {
    hide Narrow, Matches, Replaced, Commitments, Sum, ChargedTo;
    forall c | c in more ensures c.task !in db.intents {
      var k :| 0 <= k < |more| && more[k] == c;
      assert IssuedRow(db.tasks, db.children, c, ps[k], r, root.planRevision, k);
      assert c.carried ==> Named(db.children, c.task);
      assert c.task in db.intents ==> IntentSound(db, c.task, db.intents[c.task]);
    }
  }

  lemma JoinAdvances(db: Db, more: seq<Child>, r: TaskId, root: Root)
    requires r in db.roots && ChargedTo(db.roots[r], root)
    ensures Advances(db, db.(children := db.children + more, roots := db.roots[r := root]))
  {
  }

  lemma InvSplit(cfg: Config, db: Db)
    requires Inv(cfg, db)
    ensures Records(cfg, db) && Flow(db) && Referenced(db)
  {
    hide Rows, Linked, Outcomes, Numbered, Limited, Accounted, Reserved, RootsSound, ChildrenSound, Distinct;
    hide RootsAccounted, Allocated, Plans, Gated, Sent, Referenced;
  }

  lemma SameRecords(cfg: Config, db: Db, db1: Db)
    requires Records(cfg, db) && db1.tasks == db.tasks && db1.attempts == db.attempts && db1.intents == db.intents
    requires db1.nextId == db.nextId && db1.clock == db.clock
    ensures Records(cfg, db1)
  {
    hide Rows, Linked, Outcomes, Numbered, Limited, Accounted, Reserved;
  }

  lemma JoinKeeps(cfg: Config, db: Db, more: seq<Child>, r: TaskId, root: Root, ps: seq<Prepared>)
    requires Inv(cfg, db) && Joinable(db, more, r, root, ps)
    ensures var db1 := db.(children := db.children + more, roots := db.roots[r := root]);
            Inv(cfg, db1) && Advances(db, db1)
  {
    hide Inv, Advances, Records, Flow, Referenced;
    var db1 := db.(children := db.children + more, roots := db.roots[r := root]);
    InvSplit(cfg, db);
    JoinFlow(cfg, db, more, r, root, ps);
    JoinIntents(db, more, r, root, ps);
    ExtendedReferences(db, db1, more);
    JoinAdvances(db, more, r, root);
    SameRecords(cfg, db, db1);
    Assembled(cfg, db1);
  }
}
