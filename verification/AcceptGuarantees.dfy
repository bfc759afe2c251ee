/** Exactly which plans a workflow accepts, and what an accepted plan creates. */
module AcceptGuarantees {
  import opened Types
  import opened Graph
  import opened Sums
  import opened StoreOps
  import opened WorkflowOps
  import opened Invariant
  import opened PairProofs
  import opened TaskProofs
  import opened StoreProofs
  import opened SettleProofs
  import opened SteadyProofs
  import opened ScheduleProofs
  import opened RetireProofs
  import opened PlanShapes
  import opened RevisionProofs
  import opened PlanProofs
  import opened PlanGuarantees
  import opened FateGuarantees
  import opened CallerGuarantees
  import opened TickGuarantees
  import opened ChildGuarantees

  // ------------------------------------------------------------------ carried children

  /** The latest row for a key of the workflow, with succeeded work to carry over. */
  ghost predicate Carries(db: Db, r: TaskId, key: Label, d: Child) {
    && d in db.children && d.root == r && d.key == key
    && d.task in db.tasks && db.tasks[d.task].status.Succeeded?
    && forall e :: e in db.children && e.root == r && e.key == key ==> e.revision <= d.revision
  }

  /** The key has no succeeded latest row: its child starts afresh. */
  ghost predicate FreshKey(db: Db, r: TaskId, key: Label) {
    forall d :: d in db.children ==> !Carries(db, r, key, d)
  }

  lemma LatestOfKey(cfg: Config, db: Db, r: TaskId, key: Label)
    requires Inv(cfg, db) && r in db.roots
    ensures forall e :: e in db.children && e.root == r ==> e.revision <= db.roots[r].planRevision
  {
    hide Inv;
    forall e | e in db.children && e.root == r ensures e.revision <= db.roots[r].planRevision {
      KnownChild(cfg, db, e);
    }
  }

  lemma CarriedExactly(cfg: Config, db: Db, r: TaskId, key: Label)
    requires Inv(cfg, db) && r in db.roots
    ensures var source := CarrySource(db, r, key, db.roots[r].planRevision);
            && (source.None? <==> FreshKey(db, r, key))
            && (forall d :: Carries(db, r, key, d) ==> source == Some(d))
            && (source.Some? ==> Carries(db, r, key, source.value))
  {
    hide Inv;
    LatestOfKey(cfg, db, r, key);
    InvFlow(cfg, db);
    var source := SourceChild(db.children, r, key, db.roots[r].planRevision);
    forall d | Carries(db, r, key, d) ensures source == Some(d) {
      assert Akin(d, source.value);
    }
  }

  // ------------------------------------------------------------------------- budgets

  ghost predicate Belongs(db: Db, r: TaskId, t: TaskId) {
    exists c :: c in db.children && c.root == r && c.task == t
  }

  /** A task whose attempt may have run. */
  predicate Begun(db: Db, t: TaskId)
    requires t in db.tasks
  {
    var current := db.tasks[t].current;
    current.Some? && (current.value in db.attempts ==> !db.attempts[current.value].state.Queued?)
  }

  /** What a child of the replaced plan may still spend. */
  function MaySpend(db: Db, replan: bool, t: TaskId): int
    requires t in db.tasks
  {
    var ceiling, used := db.tasks[t].spec.budget.maxTokens.GetOr(0), db.tasks[t].tokensUsed;
    if replan && !Terminal(db.tasks[t].status) && Begun(db, t) && ceiling > used then ceiling - used else 0
  }

  ghost function Binding(db: Db, r: TaskId, replan: bool): map<TaskId, int> {
    map t | t in db.tasks && Belongs(db, r, t) :: MaySpend(db, replan, t)
  }

  /** Fresh children that leave their ceiling to the workflow. */
  ghost function Sharing(db: Db, r: TaskId, cs: seq<PlanChild>): set<nat> {
    set k: nat | k < |cs| && FreshKey(db, r, cs[k].id) && cs[k].task.budget.maxTokens.None?
  }

  /** The ceilings that fresh children write. */
  ghost function WrittenTokens(db: Db, r: TaskId, cs: seq<PlanChild>): map<nat, int> {
    map k: nat | k < |cs| && FreshKey(db, r, cs[k].id) :: cs[k].task.budget.maxTokens.GetOr(None).GetOr(0)
  }

  /** The ceilings that fresh children get. */
  ghost function Ceilings(db: Db, r: TaskId, cs: seq<PlanChild>, specs: seq<Spec>): map<nat, int>
    requires |specs| == |cs|
  {
    map k: nat | k < |cs| && FreshKey(db, r, cs[k].id) :: specs[k].budget.maxTokens.GetOr(0)
  }

  /** The largest whole share that leaves the written ceilings intact. */
  predicate EqualShare(sharers: nat, rest: int, share: Option<int>) {
    if sharers == 0 then share.None?
    else share.Some? && sharers * share.value <= rest < sharers * (share.value + 1)
  }

  /** A bounded workflow has tokens for the plan. */
  ghost predicate TokensSuffice(db: Db, r: TaskId, replan: bool, cs: seq<PlanChild>, share: Option<int>, specs: seq<Spec>)
    requires r in db.roots && db.roots[r].maxTokens.Some? && |specs| == |cs|
  {
    var left := db.roots[r].maxTokens.value - db.roots[r].tokensUsed - Sum(Binding(db, r, replan));
    && left >= 1
    && EqualShare(|Sharing(db, r, cs)|, left - Sum(WrittenTokens(db, r, cs)), share)
    && (share.Some? ==> share.value >= 1)
    && Sum(Ceilings(db, r, cs, specs)) <= left
  }

  ghost predicate ChildBuilt(db: Db, r: TaskId, c: PlanChild, share: Option<int>, spec: Spec)
    requires r in db.roots
  {
    Buildable(db.roots[r].authority, c.task, if FreshKey(db, r, c.id) then share else None, db.roots[r].maxTokens.Some?, spec)
  }

  /** The workflow can afford the children `cs` with contracts `specs`, of which those without a ceiling get `share`. */
  ghost predicate Affordable(db: Db, r: TaskId, replan: bool, cs: seq<PlanChild>, share: Option<int>, specs: seq<Spec>)
    requires r in db.roots
  {
    && db.roots[r].attemptsUsed < db.roots[r].maxAttempts
    && |specs| == |cs| && (forall k :: 0 <= k < |cs| ==> ChildBuilt(db, r, cs[k], share, specs[k]))
    && if db.roots[r].maxTokens.Some? then TokensSuffice(db, r, replan, cs, share, specs) else share.None?
  }

  /** The children at the places they ask for. */
  predicate InPlace(doc: seq<PlanChild>, cs: seq<PlanChild>) {
    |cs| == |doc| && forall i, k :: 0 <= i < |doc| && 0 <= k < |cs| && AsksFor(doc, i, k) ==> cs[k] == doc[i]
  }

  // ---------------------------------------------------------------- the same figures

  lemma {:induction false} SharingCount(cfg: Config, db: Db, r: TaskId, cs: seq<PlanChild>)
    requires Inv(cfg, db) && r in db.roots
    ensures ImplicitCount(db, r, cs) == |Sharing(db, r, cs)|
  {
    hide Inv, FreshKey, CarrySource;
    if cs != [] {
      var n := |cs| - 1;
      SharingCount(cfg, db, r, cs[..n]);
      CarriedExactly(cfg, db, r, cs[n].id);
      var one := if FreshKey(db, r, cs[n].id) && cs[n].task.budget.maxTokens.None? then {n} else {};
      assert Sharing(db, r, cs) == Sharing(db, r, cs[..n]) + one;
    }
  }

  lemma {:induction false} WrittenTotal(cfg: Config, db: Db, r: TaskId, cs: seq<PlanChild>)
    requires Inv(cfg, db) && r in db.roots
    ensures ExplicitTokens(db, r, cs) == Sum(WrittenTokens(db, r, cs))
  {
    hide Inv, FreshKey, CarrySource;
    if cs != [] {
      var n := |cs| - 1;
      WrittenTotal(cfg, db, r, cs[..n]);
      CarriedExactly(cfg, db, r, cs[n].id);
      var less, v := WrittenTokens(db, r, cs[..n]), cs[n].task.budget.maxTokens.GetOr(None).GetOr(0);
      if FreshKey(db, r, cs[n].id) {
        assert WrittenTokens(db, r, cs) == less[n := v];
        SumSet(less, n, v);
      } else {
        assert WrittenTokens(db, r, cs) == less;
      }
    }
  }

  /** The prepared children of a plan: the given contracts, carried where there is work to carry. */
  ghost predicate PreparedAs(db: Db, r: TaskId, cs: seq<PlanChild>, specs: seq<Spec>, ps: seq<Prepared>)
    requires r in db.roots
  {
    && |specs| == |cs| == |ps|
    && forall k :: 0 <= k < |cs| ==> ps[k] == Prepared(cs[k], specs[k], CarrySource(db, r, cs[k].id, db.roots[r].planRevision))
  }

  lemma {:induction false} CeilingsTotal(cfg: Config, db: Db, r: TaskId, cs: seq<PlanChild>, specs: seq<Spec>, ps: seq<Prepared>)
    requires Inv(cfg, db) && r in db.roots && PreparedAs(db, r, cs, specs, ps)
    ensures Requested(ps) == Sum(Ceilings(db, r, cs, specs))
  {
    hide Inv, FreshKey, CarrySource;
    if cs != [] {
      var n := |cs| - 1;
      CeilingsTotal(cfg, db, r, cs[..n], specs[..n], ps[..n]);
      CarriedExactly(cfg, db, r, cs[n].id);
      var less, v := Ceilings(db, r, cs[..n], specs[..n]), specs[n].budget.maxTokens.GetOr(0);
      if FreshKey(db, r, cs[n].id) {
        assert Ceilings(db, r, cs, specs) == less[n := v];
        SumSet(less, n, v);
      } else {
        assert Ceilings(db, r, cs, specs) == less;
      }
    }
  }

  lemma BindingTotal(cfg: Config, db: Db, r: TaskId, replan: bool)
    requires Inv(cfg, db) && r in db.roots
    ensures forall t :: t in (if replan then OpenChildren(db, r) else []) ==> t in db.tasks
    ensures HeldTokens(db, if replan then OpenChildren(db, r) else []) == Sum(Binding(db, r, replan))
  {
    hide Inv;
    OpenListed(cfg, db, r);
    var ids := if replan then OpenChildren(db, r) else [];
    HoldingsTotal(db, r, ids);
    forall t | t in db.tasks && IsChild(db.children, r, t) ensures Holding(db, ids, t) == MaySpend(db, replan, t) {
      assert replan ==> (t in ids <==> IsOpenChild(db, r, t));
    }
    assert forall t :: IsChild(db.children, r, t) <==> Belongs(db, r, t);
    hide IsChild, Belongs, Holding, MaySpend;
    assert Holdings(db, r, ids) == Binding(db, r, replan);
  }

  lemma ShareExactly(n: nat, rest: int, x: int)
    requires n > 0
    ensures rest / n == x <==> n * x <= rest < n * (x + 1)
  {
    var q := rest / n;
    assert n * q <= rest < n * q + n;
    assert n * (q + 1) == n * q + n && n * (x + 1) == n * x + n;
    if q < x {
      Grows(n, q + 1, x);
    } else if x < q {
      Grows(n, x + 1, q);
    }
  }

  lemma Grows(n: nat, x: int, y: int)
    requires x <= y
    ensures n * x <= n * y
  {
  }

  lemma {:induction false} PreparesAll(db: Db, r: TaskId, cs: seq<PlanChild>, share: Option<int>, bounded: bool)
    requires r in db.roots
    ensures PrepareChildren(db, r, cs, share, bounded).Some? <==> forall k :: 0 <= k < |cs| ==> PrepareChild(db, r, cs[k], share, bounded).Some?
  {
    hide PrepareChild;
    if cs != [] {
      PreparesAll(db, r, cs[..|cs| - 1], share, bounded);
    }
  }

  lemma PreparesOne(cfg: Config, db: Db, r: TaskId, c: PlanChild, share: Option<int>, spec: Spec)
    requires Inv(cfg, db) && r in db.roots
    ensures ChildBuilt(db, r, c, share, spec) <==>
            PrepareChild(db, r, c, share, db.roots[r].maxTokens.Some?)
            == Some(Prepared(c, spec, CarrySource(db, r, c.id, db.roots[r].planRevision)))
  {
    hide Inv, FreshKey, CarrySource, ChildSpec, Buildable;
    CarriedExactly(cfg, db, r, c.id);
    ChildAsWritten(db.roots[r].authority, c.task, if FreshKey(db, r, c.id) then share else None, db.roots[r].maxTokens.Some?, spec);
  }

  lemma ArrangedInPlace(doc: seq<PlanChild>, cs: seq<PlanChild>)
    requires OrdersContiguous(doc)
    ensures InPlace(doc, cs) <==> cs == Arranged(doc)
  {
    var arranged := Arranged(doc);
    forall i | 0 <= i < |doc| ensures AsksFor(doc, i, OrderOf(doc, i)) && OrderOf(doc, i) < |doc| && arranged[OrderOf(doc, i)] == doc[i] {
      ArrangedExact(doc, i);
    }
    if InPlace(doc, cs) {
      forall k | 0 <= k < |cs| ensures cs[k] == arranged[k] {
        assert HasOrder(doc, k);
        var i :| 0 <= i < |doc| && OrderOf(doc, i) == k;
        assert AsksFor(doc, i, k);
      }
    }
  }

  // ---------------------------------------------------------------------- acceptance

  /** The decision once the shape is settled: what is available, how it is shared, and what it buys. */
  ghost function Decision(db: Db, r: TaskId, cs: seq<PlanChild>, available: Option<int>): Option<seq<Prepared>>
    requires r in db.roots
  {
    var share := Share(db, r, available, cs);
    if db.roots[r].maxAttempts - db.roots[r].attemptsUsed < 1 || (available.Some? && available.value <= 0) || (share.Some? && share.value < 1) then None
    else
      var ps := PrepareChildren(db, r, cs, share, available.Some?);
      if ps.None? || (available.Some? && Requested(ps.value) > available.value) then None else ps
  }

  lemma DecisionMade(cfg: Config, db: Db, r: TaskId, doc: PlanDoc, replan: bool, available: Option<int>)
    requires Inv(cfg, db) && r in db.roots && WellShaped(doc, db.roots[r].maxChildren)
    requires available == if db.roots[r].maxTokens.None? then None
                          else Some(db.roots[r].maxTokens.value - db.roots[r].tokensUsed - Sum(Binding(db, r, replan)))
    ensures PreparePlan(db, r, doc, replan) == Decision(db, r, Arranged(doc.children), available)
  {
    hide Inv, PrepareChildren, Share, Requested, Sum, Binding, HeldTokens, Arranged, OpenChildren, Acyclic, PlanGraph, ChildShaped;
    BindingTotal(cfg, db, r, replan);
  }

  /** The figures of a decision, read off the tables. */
  lemma Figures(cfg: Config, db: Db, r: TaskId, cs: seq<PlanChild>, available: Option<int>, share: Option<int>)
    requires Inv(cfg, db) && r in db.roots
    ensures share == Share(db, r, available, cs) <==>
            if available.None? then share.None?
            else EqualShare(|Sharing(db, r, cs)|, available.value - Sum(WrittenTokens(db, r, cs)), share)
  {
    hide Inv, ImplicitCount, ExplicitTokens, Sharing, WrittenTokens, Sum;
    SharingCount(cfg, db, r, cs);
    WrittenTotal(cfg, db, r, cs);
    if available.Some? && share.Some? && |Sharing(db, r, cs)| > 0 {
      ShareExactly(|Sharing(db, r, cs)|, available.value - Sum(WrittenTokens(db, r, cs)), share.value);
    }
  }

  lemma AffordableDecides(cfg: Config, db: Db, r: TaskId, replan: bool, cs: seq<PlanChild>, share: Option<int>, specs: seq<Spec>,
                          available: Option<int>)
    requires Inv(cfg, db) && r in db.roots && Affordable(db, r, replan, cs, share, specs)
    requires available == if db.roots[r].maxTokens.None? then None
                          else Some(db.roots[r].maxTokens.value - db.roots[r].tokensUsed - Sum(Binding(db, r, replan)))
    ensures var ps := Decision(db, r, cs, available); ps.Some? && PreparedAs(db, r, cs, specs, ps.value)
  {
    hide Inv, Sharing, WrittenTokens, Binding, Ceilings, Sum, ChildBuilt, PrepareChild, PrepareChildren, Requested, Share, EqualShare, CarrySource;
    Figures(cfg, db, r, cs, available, share);
    forall k | 0 <= k < |cs|
      ensures PrepareChild(db, r, cs[k], share, available.Some?)
              == Some(Prepared(cs[k], specs[k], CarrySource(db, r, cs[k].id, db.roots[r].planRevision)))
    {
      assert ChildBuilt(db, r, cs[k], share, specs[k]);
      PreparesOne(cfg, db, r, cs[k], share, specs[k]);
    }
    PreparesAll(db, r, cs, share, available.Some?);
    CeilingsTotal(cfg, db, r, cs, specs, PrepareChildren(db, r, cs, share, available.Some?).value);
  }

  lemma DecidesAffordable(cfg: Config, db: Db, r: TaskId, replan: bool, cs: seq<PlanChild>, available: Option<int>)
    returns (share: Option<int>, specs: seq<Spec>)
    requires Inv(cfg, db) && r in db.roots && Decision(db, r, cs, available).Some?
    requires available == if db.roots[r].maxTokens.None? then None
                          else Some(db.roots[r].maxTokens.value - db.roots[r].tokensUsed - Sum(Binding(db, r, replan)))
    ensures Affordable(db, r, replan, cs, share, specs) && PreparedAs(db, r, cs, specs, Decision(db, r, cs, available).value)
  {
    hide Inv, Sharing, WrittenTokens, Binding, Ceilings, Sum, ChildBuilt, PrepareChild, PrepareChildren, Requested, Share, EqualShare, CarrySource;
    share := Share(db, r, available, cs);
    Figures(cfg, db, r, cs, available, share);
    var ps := Decision(db, r, cs, available).value;
    specs := seq(|cs|, k requires 0 <= k < |ps| => ps[k].spec);
    forall k | 0 <= k < |cs|
      ensures ChildBuilt(db, r, cs[k], share, specs[k])
              && ps[k] == Prepared(cs[k], specs[k], CarrySource(db, r, cs[k].id, db.roots[r].planRevision))
    {
      PreparedParts(db, r, cs[k], share, available.Some?);
      PreparesOne(cfg, db, r, cs[k], share, specs[k]);
    }
    CeilingsTotal(cfg, db, r, cs, specs, ps);
  }

  lemma PreparedParts(db: Db, r: TaskId, c: PlanChild, share: Option<int>, bounded: bool)
    requires r in db.roots && PrepareChild(db, r, c, share, bounded).Some?
    ensures var p := PrepareChild(db, r, c, share, bounded).value;
            p == Prepared(c, p.spec, CarrySource(db, r, c.id, db.roots[r].planRevision))
  {
    hide ChildSpec, CarrySource;
  }

  ghost predicate Acceptable(db: Db, r: TaskId, doc: PlanDoc, replan: bool, cs: seq<PlanChild>, share: Option<int>, specs: seq<Spec>)
    requires r in db.roots
  {
    Proper(doc, db.roots[r].maxChildren) && InPlace(doc.children, cs) && Affordable(db, r, replan, cs, share, specs)
  }

  /** A plan is accepted if and only if it is still due, proper, and affordable: attempts and tokens are left, every
      child may be built with what the plan writes and its share of the rest, and what fresh children get fits. */
  lemma AcceptedIff(cfg: Config, db: Db, r: TaskId, doc: PlanDoc, replan: bool)
    requires Inv(cfg, db) && r in db.roots
    ensures SettlePlan(db, r, doc, replan).1.state.Accepted? <==>
            && (replan || db.roots[r].planRevision == 0)
            && exists cs, share, specs :: Acceptable(db, r, doc, replan, cs, share, specs)
  {
    hide Inv, SettlePlan, PreparePlan, Proper, InPlace, Affordable, WellShaped, Decision, Arranged, PreparedAs, Sum, Binding;
    AcceptedExactly(cfg, db, r, doc, replan);
    if exists cs, share, specs :: Acceptable(db, r, doc, replan, cs, share, specs) {
      var cs, share, specs :| Acceptable(db, r, doc, replan, cs, share, specs);
      AcceptablePrepares(cfg, db, r, doc, replan, cs, share, specs);
    }
    if PreparePlan(db, r, doc, replan).Some? {
      var cs, share, specs := PreparesAcceptable(cfg, db, r, doc, replan);
    }
  }

  lemma ShapedParts(doc: PlanDoc, maxChildren: int)
    requires WellShaped(doc, maxChildren)
    ensures doc.Plan? && OrdersContiguous(doc.children)
  {
  }

  lemma AcceptablePrepares(cfg: Config, db: Db, r: TaskId, doc: PlanDoc, replan: bool, cs: seq<PlanChild>, share: Option<int>, specs: seq<Spec>)
    requires Inv(cfg, db) && r in db.roots && Acceptable(db, r, doc, replan, cs, share, specs)
    ensures PreparePlan(db, r, doc, replan).Some? && PreparedAs(db, r, cs, specs, PreparePlan(db, r, doc, replan).value)
  {
    hide Inv, PreparePlan, Proper, InPlace, Affordable, WellShaped, Decision, Arranged, PreparedAs, Sum, Binding;
    ProperExactly(doc, db.roots[r].maxChildren);
    ShapedParts(doc, db.roots[r].maxChildren);
    ArrangedInPlace(doc.children, cs);
    var available := if db.roots[r].maxTokens.None? then None
                     else Some(db.roots[r].maxTokens.value - db.roots[r].tokensUsed - Sum(Binding(db, r, replan)));
    DecisionMade(cfg, db, r, doc, replan, available);
    AffordableDecides(cfg, db, r, replan, cs, share, specs, available);
  }

  lemma PreparesAcceptable(cfg: Config, db: Db, r: TaskId, doc: PlanDoc, replan: bool)
    returns (cs: seq<PlanChild>, share: Option<int>, specs: seq<Spec>)
    requires Inv(cfg, db) && r in db.roots && PreparePlan(db, r, doc, replan).Some?
    ensures Acceptable(db, r, doc, replan, cs, share, specs) && PreparedAs(db, r, cs, specs, PreparePlan(db, r, doc, replan).value)
  {
    hide Inv, PreparePlan, Proper, InPlace, Affordable, WellShaped, Decision, Arranged, PreparedAs, Sum, Binding;
    PreparedShape(db, r, doc, replan);
    ProperExactly(doc, db.roots[r].maxChildren);
    ShapedParts(doc, db.roots[r].maxChildren);
    cs := Arranged(doc.children);
    ArrangedInPlace(doc.children, cs);
    var available := if db.roots[r].maxTokens.None? then None
                     else Some(db.roots[r].maxTokens.value - db.roots[r].tokensUsed - Sum(Binding(db, r, replan)));
    DecisionMade(cfg, db, r, doc, replan, available);
    share, specs := DecidesAffordable(cfg, db, r, replan, cs, available);
  }

  // ------------------------------------------------------------------ created children

  lemma {:induction false} InsertedIds(db: Db, r: TaskId, revision: nat, ps: seq<Prepared>)
    ensures var (f, ids) := InsertChildren(db, r, revision, ps);
            && |f.children| == |db.children| + |ps|
            && forall k :: 0 <= k < |ps| ==> f.children[|db.children| + k].task == ids[k]
  {
    if ps != [] {
      InsertedIds(db, r, revision, ps[..|ps| - 1]);
    }
  }

  /** The row of one child of the new revision, and its task: the one whose succeeded work is carried over, or a
      new one with the contract that was built. */
  ghost predicate Created(db: Db, db1: Db, r: TaskId, revision: nat, k: nat, c: PlanChild, spec: Spec, row: Child) {
    && row == Child(r, revision, k, c.id, row.task, c.dependencies, c.delivery, row.carried)
    && (row.carried <==> !FreshKey(db, r, c.id))
    && (forall d :: Carries(db, r, c.id, d) ==> row.task == d.task)
    && (!row.carried ==> row.task >= db.nextId && row.task in db1.tasks && Newborn(db1.tasks[row.task], spec, db.clock))
  }

  lemma CreatedRow(cfg: Config, db: Db, x: Db, f: Db, r: TaskId, revision: nat, k: nat, c: PlanChild, spec: Spec, row: Child, p: Prepared)
    requires Inv(cfg, db) && r in db.roots && x.nextId == db.nextId && x.clock == db.clock
    requires p == Prepared(c, spec, CarrySource(db, r, c.id, db.roots[r].planRevision)) && FilledRow(x, f, row, p, r, revision, k)
    ensures Created(db, f, r, revision, k, c, spec, row)
  {
    hide Inv, Carries, FreshKey, CarrySource;
    CarriedExactly(cfg, db, r, c.id);
  }

  /** The root of an accepted plan executes its new revision; its limits and counters stay. */
  predicate Executes(root: Root, doc: PlanDoc, replan: bool, after: Root) {
    && after.state.Executing? && after.reason.None? && after.iteration == root.iteration + (if replan then 1 else 0)
    && after.plans == root.plans + [PlanRow(true, doc)] && after.planRevision == |after.plans|
    && after == root.(state := after.state, reason := after.reason, iteration := after.iteration, plans := after.plans,
                      planRevision := after.planRevision)
  }

  /** Everything an accepted plan creates. */
  ghost predicate Creates(db: Db, db1: Db, receipt: Receipt, r: TaskId, doc: PlanDoc, replan: bool, cs: seq<PlanChild>,
                          specs: seq<Spec>, more: seq<Child>)
    requires r in db.roots && |specs| == |cs|
  {
    && r in db1.roots && Executes(db.roots[r], doc, replan, db1.roots[r]) && db1.roots == db.roots[r := db1.roots[r]]
    && receipt.revision == db1.roots[r].planRevision
    && db1.children == db.children + more && |more| == |cs| == |receipt.children|
    && (forall k :: 0 <= k < |cs| ==> Created(db, db1, r, receipt.revision, k, cs[k], specs[k], more[k]) && receipt.children[k] == more[k].task)
    && (forall i, j :: 0 <= i < j < |cs| && !more[i].carried && !more[j].carried ==> more[i].task != more[j].task)
  }

  lemma AcceptedShape(db: Db, r: TaskId, doc: PlanDoc, replan: bool, ps: seq<Prepared>, x: Db)
    requires r in db.roots && x == RetireAll(db, if replan then OpenChildren(db, r) else []) && x.roots == db.roots
    ensures var (db1, receipt) := AcceptPlan(db, r, doc, replan, ps);
            var (f, ids) := InsertChildren(x, r, |db.roots[r].plans| + 1, ps);
            && db1.tasks == f.tasks && db1.children == f.children && receipt == Receipt(|db.roots[r].plans| + 1, Accepted, ids)
            && r in db1.roots && Executes(db.roots[r], doc, replan, db1.roots[r]) && db1.roots == db.roots[r := db1.roots[r]]
  {
    hide RetireAll, InsertChildren, OpenChildren;
  }

  lemma DueShape(db: Db, r: TaskId, doc: PlanDoc, replan: bool, ps: seq<Prepared>)
    requires r in db.roots && (replan || db.roots[r].planRevision == 0) && PreparePlan(db, r, doc, replan) == Some(ps)
    ensures SettlePlan(db, r, doc, replan) == AcceptPlan(db, r, doc, replan, ps)
  {
    hide PreparePlan, AcceptPlan;
  }

  lemma CreatedAll(cfg: Config, db: Db, x: Db, r: TaskId, revision: nat, cs: seq<PlanChild>, specs: seq<Spec>, ps: seq<Prepared>)
    returns (more: seq<Child>)
    requires Inv(cfg, db) && r in db.roots && x.nextId == db.nextId && x.clock == db.clock && x.children == db.children
    requires PreparedAs(db, r, cs, specs, ps) && forall t :: t in x.tasks ==> t < x.nextId
    ensures var (f, ids) := InsertChildren(x, r, revision, ps);
            && f.children == db.children + more && |more| == |cs| == |ids|
            && (forall k :: 0 <= k < |cs| ==> Created(db, f, r, revision, k, cs[k], specs[k], more[k]) && ids[k] == more[k].task)
            && (forall i, j :: 0 <= i < j < |cs| && !more[i].carried && !more[j].carried ==> more[i].task != more[j].task)
  {
    hide Inv, Created, CarrySource, FilledFrame, InsertChildren, FilledRow;
    more := FilledShape(x, r, revision, ps);
    InsertedIds(x, r, revision, ps);
    var (f, ids) := InsertChildren(x, r, revision, ps);
    forall k | 0 <= k < |cs| ensures Created(db, f, r, revision, k, cs[k], specs[k], more[k]) && ids[k] == more[k].task {
      assert FilledRow(x, f, more[k], ps[k], r, revision, k);
      CreatedRow(cfg, db, x, f, r, revision, k, cs[k], specs[k], more[k], ps[k]);
      assert f.children[|db.children| + k] == more[k];
    }
  }

  /** An accepted plan creates exactly its children: one row for each place of the plan, with the dependencies and
      deliveries of the document, over carried work or a new task with the contract the document spells out. */
  lemma AcceptedCreates(cfg: Config, db: Db, r: TaskId, doc: PlanDoc, replan: bool)
    returns (cs: seq<PlanChild>, share: Option<int>, specs: seq<Spec>, more: seq<Child>)
    requires Inv(cfg, db) && r in db.roots && SettlePlan(db, r, doc, replan).1.state.Accepted?
    ensures Acceptable(db, r, doc, replan, cs, share, specs) && |specs| == |cs|
    ensures var (db1, receipt) := SettlePlan(db, r, doc, replan); Creates(db, db1, receipt, r, doc, replan, cs, specs, more)
  {
    hide Inv, SettlePlan, PreparePlan, AcceptPlan, Acceptable, RetireAll, InsertChildren, OpenChildren, RetiredSet, Created, Executes, CarrySource, AllOpen, Advances;
    AcceptedExactly(cfg, db, r, doc, replan);
    var ps := PreparePlan(db, r, doc, replan).value;
    cs, share, specs := PreparesAcceptable(cfg, db, r, doc, replan);
    var open := if replan then OpenChildren(db, r) else [];
    OpenInTasks(db, r);
    ReplacedKeeps(cfg, db, r, replan, open);
    var x := RetireAll(db, open);
    RetiredFrame(db, x, open);
    KnownIds(cfg, x);
    DueShape(db, r, doc, replan, ps);
    AcceptedShape(db, r, doc, replan, ps, x);
    more := CreatedAll(cfg, db, x, r, |db.roots[r].plans| + 1, cs, specs, ps);
    SameCreated(db, InsertChildren(x, r, |db.roots[r].plans| + 1, ps).0, SettlePlan(db, r, doc, replan).0, r, |db.roots[r].plans| + 1, cs, specs, more);
  }

  lemma SameCreated(db: Db, f: Db, db1: Db, r: TaskId, revision: nat, cs: seq<PlanChild>, specs: seq<Spec>, more: seq<Child>)
    requires db1.tasks == f.tasks && |specs| == |cs| == |more|
    requires forall k :: 0 <= k < |cs| ==> Created(db, f, r, revision, k, cs[k], specs[k], more[k])
    ensures forall k :: 0 <= k < |cs| ==> Created(db, db1, r, revision, k, cs[k], specs[k], more[k])
  {
    hide Carries, FreshKey;
  }

  // ------------------------------------------------------------------ replaced children

  /** The current attempt of a replaced child ends if nobody claimed it. */
  predicate QueuedWithdrawn(db: Db, x: Db, t: TaskId) {
    t in db.tasks && db.tasks[t].current.Some? && db.tasks[t].current.value in db.attempts && db.attempts[db.tasks[t].current.value].state.Queued? ==>
      db.tasks[t].current.value in x.attempts
      && Withdrawn(db.attempts[db.tasks[t].current.value], Stopped, db.clock, x.attempts[db.tasks[t].current.value])
  }

  lemma RetireWithdraws(db: Db, mid: Db, t: TaskId)
    requires t in mid.tasks && t in db.tasks && mid.tasks[t] == db.tasks[t] && mid.clock == db.clock
    requires var current := db.tasks[t].current; current.Some? && current.value in db.attempts ==>
               current.value in mid.attempts && mid.attempts[current.value] == db.attempts[current.value]
    ensures QueuedWithdrawn(db, Retire(mid, t), t)
  {
  }

  lemma {:induction false} RetireAllWithdraws(cfg: Config, db: Db, ids: seq<TaskId>)
    requires Inv(cfg, db) && Ascends(ids) && forall t :: t in ids ==> t in db.tasks && Unfinished(db, t)
    ensures forall t :: t in ids ==> QueuedWithdrawn(db, RetireAll(db, ids), t)
  {
    hide Inv, Retire, QueuedWithdrawn, Advances, Unfinished, RetiredSet, Terminal;
    if ids != [] {
      var n := |ids| - 1;
      var t := ids[n];
      assert t in ids && t !in ids[..n];
      assert forall u :: u in ids[..n] ==> u in ids;
      UnfinishedKnown(db, ids);
      var mid := RetireAll(db, ids[..n]);
      RetireAllWithdraws(cfg, db, ids[..n]);
      RetireAllShape(cfg, db, ids[..n]);
      UntouchedRows(cfg, db, mid, ids[..n], t);
      RetireWithdraws(db, mid, t);
      forall u | u in ids ensures QueuedWithdrawn(db, RetireAll(db, ids), u) {
        if u != t {
          assert u in ids[..n];
          OwnCurrent(cfg, db, t, u);
          RetireOther(db, mid, t, u);
        }
      }
    }
  }

  lemma UnfinishedKnown(db: Db, ids: seq<TaskId>)
    requires forall t :: t in ids ==> Unfinished(db, t)
    ensures forall t :: t in ids ==> t in db.tasks
  {
  }

  lemma UntouchedRows(cfg: Config, db: Db, mid: Db, ids: seq<TaskId>, t: TaskId)
    requires Inv(cfg, db) && RetiredSet(db, mid, ids) && Unfinished(db, t) && t !in ids
    ensures t in mid.tasks && mid.tasks[t] == db.tasks[t] && mid.clock == db.clock
    ensures var current := db.tasks[t].current; current.Some? && current.value in db.attempts ==>
              current.value in mid.attempts && mid.attempts[current.value] == db.attempts[current.value]
  {
    hide Inv, RetiredTask, Unstarted;
    PendingIdle(cfg, db, t);
  }

  lemma OwnCurrent(cfg: Config, db: Db, t: TaskId, u: TaskId)
    requires Inv(cfg, db) && Unfinished(db, t) && Unfinished(db, u) && t != u
    ensures db.tasks[t].current.Some? ==> db.tasks[t].current != db.tasks[u].current
  {
    hide Inv;
    PendingIdle(cfg, db, t);
    PendingIdle(cfg, db, u);
  }

  lemma RetireOther(db: Db, mid: Db, t: TaskId, u: TaskId)
    requires QueuedWithdrawn(db, mid, u) && t in mid.tasks && t in db.tasks && mid.tasks[t] == db.tasks[t] && u in db.tasks
    requires db.tasks[t].current.Some? ==> db.tasks[t].current != db.tasks[u].current
    ensures QueuedWithdrawn(db, Retire(mid, t), u)
  {
    hide Withdrawn, RetiredTask, RetiredAttempt;
  }

  /** A child that a replan replaces: work that has not begun ends as obsolete, work that has begun is asked to stop. */
  predicate ReplacedRow(db: Db, t: TaskId, after: Task)
    requires t in db.tasks
  {
    && (Begun(db, t) ==> after == db.tasks[t].(desired := Action.Cancel, reason := Some(ObsoleteByReplan)))
    && (!Begun(db, t) ==> after == db.tasks[t].(desired := Action.Cancel, reason := Some(ObsoleteByReplan), status := Status.Cancelled,
                                                finishedAt := Some(db.clock)))
  }

  /** An accepted replan replaces exactly the unfinished children of its workflow, and withdraws their unclaimed attempts. */
  lemma ReplanReplaces(cfg: Config, db: Db, r: TaskId, doc: PlanDoc, t: TaskId)
    requires Inv(cfg, db) && r in db.roots && SettlePlan(db, r, doc, true).1.state.Accepted? && t in db.tasks
    ensures var y := SettlePlan(db, r, doc, true).0;
            && t in y.tasks
            && (Belongs(db, r, t) && !Terminal(db.tasks[t].status) ==> ReplacedRow(db, t, y.tasks[t]) && QueuedWithdrawn(db, y, t))
            && (!(Belongs(db, r, t) && !Terminal(db.tasks[t].status)) ==> y.tasks[t] == db.tasks[t])
  {
    hide Inv, SettlePlan, PreparePlan, RetireAll, OpenChildren, QueuedWithdrawn;
    AcceptedExactly(cfg, db, r, doc, true);
    AcceptedTasks(cfg, db, r, doc);
    OpenListed(cfg, db, r);
    assert IsChild(db.children, r, t) <==> Belongs(db, r, t);
    var ids := OpenChildren(db, r);
    assert t in ids <==> IsOpenChild(db, r, t);
    OpenUnfinished(db, r, ids);
    RetireAllWithdraws(cfg, db, ids);
    SameWithdrawn(db, RetireAll(db, ids), SettlePlan(db, r, doc, true).0, t);
  }

  lemma OpenUnfinished(db: Db, r: TaskId, ids: seq<TaskId>)
    requires AllOpen(db, r, ids)
    ensures forall t :: t in ids ==> Unfinished(db, t)
  {
  }

  lemma SameWithdrawn(db: Db, x: Db, y: Db, t: TaskId)
    requires y.attempts == x.attempts
    ensures QueuedWithdrawn(db, y, t) == QueuedWithdrawn(db, x, t)
  {
  }

  // -------------------------------------------------------------------- plan commands

  /** A plan command under a fresh key, or none, settles the plan once; only an unknown workflow and a plan that is no
      longer due are declined, and the key then remembers nothing. */
  lemma PlanCommandExactly(db: Db, r: TaskId, doc: PlanDoc, replan: bool, key: Option<Label>)
    requires key.Some? ==> key.value !in db.commands
    ensures var (y, outcome) := SettlePlanCommand(db, r, doc, replan, key);
            && (r !in db.roots ==> y == db && outcome == Declined(NotFound))
            && (r in db.roots && !replan && db.roots[r].planRevision > 0 ==> y == db && outcome == Declined(Conflict))
            && (r in db.roots && (replan || db.roots[r].planRevision == 0) ==>
                  && outcome == Answer(SettlePlan(db, r, doc, replan).1, false)
                  && y == SettlePlan(db, r, doc, replan).0.(commands := y.commands)
                  && (key.None? ==> y.commands == db.commands)
                  && (key.Some? ==> y.commands == db.commands[key.value := Command(r, PlanPayload(replan, r, doc), db.clock, Some(outcome.receipt))]))
  {
    hide SettlePlan, KnownUsage, Successes, Rotation;
    if r in db.roots {
      SettlePlanSteady(db, r, doc, replan);
    }
  }
}
