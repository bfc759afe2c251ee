/** Workflow transactions over the store: plan validation, settlement, delivery and budgets. */
module WorkflowClass {
  import opened Types
  import opened Graph
  import opened StoreOps
  import opened WorkflowOps
  import opened PlanShapes
  import opened StoreClass

  class WorkflowStore {
    const store: Store

    constructor (store: Store)
      ensures this.store == store
    {
      this.store := store;
    }

    // -------------------------------------------------------- plan validation

    static method AllDistinct(xs: seq<Label>) returns (ok: bool)
      ensures ok == NoRepeats(xs)
    {
      var seen := {};
      var i := 0;
      while i < |xs|
        invariant 0 <= i <= |xs| && seen == (set k | 0 <= k < i :: xs[k]) && NoRepeats(xs[..i])
      {
        if xs[i] in seen {
          return false;
        }
        seen := seen + {xs[i]};
        i := i + 1;
      }
      assert xs[..|xs|] == xs;
      return true;
    }

    /** The position of the child whose order is `k`. */
    static method FindOrder(cs: seq<PlanChild>, k: nat) returns (found: bool, at: nat)
      ensures found <==> HasOrder(cs, k)
      ensures found ==> at < |cs| && OrderOf(cs, at) == k
    {
      found, at := false, 0;
      while at < |cs|
        invariant 0 <= at <= |cs| && forall i :: 0 <= i < at ==> OrderOf(cs, i) != k
      {
        if OrderOf(cs, at) == k {
          return true, at;
        }
        at := at + 1;
      }
    }

    static method CheckChild(cs: seq<PlanChild>, known: set<Label>, c: PlanChild) returns (ok: bool)
      requires forall id :: id in known <==> Knows(cs, id)
      ensures ok == ChildShaped(cs, c)
    {
      var distinct := AllDistinct(c.dependencies);
      if !distinct || exists d :: d in c.dependencies && d !in known {
        return false;
      }
      ok := AllDistinct(c.delivery.files);
    }

    static method NamesDistinct(cs: seq<PlanChild>) returns (ok: bool)
      ensures ok == ChildrenNamed(cs)
    {
      var ids := seq(|cs|, i requires 0 <= i < |cs| => cs[i].id);
      ok := AllDistinct(ids);
      if ok {
        forall i, j | 0 <= i < j < |cs| ensures cs[i].id != cs[j].id {
          assert ids[i] != ids[j];
        }
      } else {
        var i, j :| 0 <= i < j < |ids| && ids[i] == ids[j];
        assert cs[i].id == cs[j].id;
      }
    }

    static method OrdersDistinct(cs: seq<PlanChild>) returns (ok: bool)
      ensures ok == forall i, j :: 0 <= i < j < |cs| ==> OrderOf(cs, i) != OrderOf(cs, j)
    {
      var orders := seq(|cs|, i requires 0 <= i < |cs| => OrderOf(cs, i));
      ok := AllDistinct(orders);
      if ok {
        forall i, j | 0 <= i < j < |cs| ensures OrderOf(cs, i) != OrderOf(cs, j) {
          assert orders[i] != orders[j];
        }
      } else {
        var i, j :| 0 <= i < j < |orders| && orders[i] == orders[j];
        assert OrderOf(cs, i) == OrderOf(cs, j);
      }
    }

    /** The children rearranged by their order; fails unless the orders are 0, 1, 2 and so on. */
    static method SortByOrder(cs: seq<PlanChild>) returns (ok: bool, normalized: seq<PlanChild>)
      ensures ok == OrdersContiguous(cs) && (ok ==> normalized == Arranged(cs))
    {
      normalized := [];
      ok := OrdersDistinct(cs);
      if !ok {
        return;
      }
      var k := 0;
      while k < |cs|
        invariant 0 <= k <= |cs| && |normalized| == k
        invariant forall j :: 0 <= j < k ==> HasOrder(cs, j) && PlacedAt(cs, j, normalized[j])
      {
        var found, at := FindOrder(cs, k);
        if !found {
          return false, normalized;
        }
        normalized := normalized + [cs[at]];
        k := k + 1;
      }
      OneArrangement(cs, normalized);
    }

    /** Checks every child's references and collects the dependency graph. */
    static method CheckChildren(cs: seq<PlanChild>) returns (ok: bool, graph: Edges)
      ensures ok == forall c :: c in cs ==> ChildShaped(cs, c)
      ensures ok ==> graph == PlanGraph(cs)
    {
      var known := set i | 0 <= i < |cs| :: cs[i].id;
      graph, ok := map[], true;
      var i := 0;
      while i < |cs|
        invariant 0 <= i <= |cs| && graph == PlanGraph(cs[..i])
        invariant forall j :: 0 <= j < i ==> ChildShaped(cs, cs[j])
      {
        ok := CheckChild(cs, known, cs[i]);
        if !ok {
          return;
        }
        graph := graph[cs[i].id := set d | d in cs[i].dependencies];
        assert cs[..i + 1][..i] == cs[..i];
        i := i + 1;
      }
      assert cs[..|cs|] == cs;
    }

    /** Accepts a plan document exactly when it is well shaped, and returns its children by order. */
    static method ValidatePlanShape(doc: PlanDoc, maxChildren: int) returns (ok: bool, normalized: seq<PlanChild>)
      ensures ok == WellShaped(doc, maxChildren)
      ensures ok ==> normalized == Arranged(doc.children)
    {
      normalized := [];
      if doc.Malformed? || !(1 <= |doc.children| <= 1000) || |doc.children| > maxChildren {
        return false, normalized;
      }
      hide ChildrenNamed, OrdersContiguous, ChildShaped, Acyclic, Closed, Arranged, PlanGraph;
      var cs := doc.children;
      var named := NamesDistinct(cs);
      if !named {
        return false, normalized;
      }
      ok, normalized := SortByOrder(cs);
      if !ok {
        return;
      }
      var graph;
      ok, graph := CheckChildren(cs);
      if !ok {
        return;
      }
      PlanGraphClosed(cs);
      var search := new CycleSearch(graph);
      ok := search.Check();
    }

    /** Distinct orders admit one arrangement only. */
    static lemma OneArrangement(cs: seq<PlanChild>, r: seq<PlanChild>)
      requires OrdersContiguous(cs) && |r| == |cs| && forall k :: 0 <= k < |cs| ==> PlacedAt(cs, k, r[k])
      ensures r == Arranged(cs)
    {
      forall k | 0 <= k < |cs| ensures r[k] == Arranged(cs)[k] {
        assert PlacedAt(cs, k, r[k]) && PlacedAt(cs, k, Arranged(cs)[k]);
      }
    }

    // -------------------------------------------------------- child authority

    /** Builds one child's specification field by field; None when it asks for more than its root has. */
    static method ChildSpec(root: Spec, d: ChildDoc, share: Option<int>, bounded: bool) returns (result: Option<Spec>)
      ensures result == WorkflowOps.ChildSpec(root, d, share, bounded)
    {
      if !d.permitted || d.runtime.GetOr(root.runtime) != root.runtime || d.workspace.GetOr(root.workspace) != root.workspace {
        return None;
      }
      var spec := root.(sandbox := d.sandbox.GetOr(root.sandbox), tools := d.tools.GetOr(root.tools),
                        content := d.content.GetOr(root.content));
      if (root.sandbox.ReadOnly? && !spec.sandbox.ReadOnly?) || (spec.sandbox.WorkspaceWrite? && WRITE_FILE !in root.tools) {
        return None;
      }
      if !(spec.tools <= root.tools) || d.model.GetOr(root.model) != root.model {
        return None;
      }
      spec := spec.(retry := MergeRetry(root.retry, d.retry), budget := MergeBudget(root.budget, d.budget));
      if spec.retry.maxAttempts > root.retry.maxAttempts || (spec.retry.replaySafe && !root.retry.replaySafe) {
        return None;
      }
      if root.budget.maxTokens.Some? && spec.budget.maxTokens.None? {
        return None;
      }
      if bounded && d.budget.maxTokens == Some(None) {
        return None;
      }
      if Broadens(spec.budget, root.budget) {
        return None;
      }
      if d.budget.maxTokens.None? && share.Some? {
        var inherited := spec.budget.maxTokens;
        var ceiling := if inherited.None? || share.value <= inherited.value then share.value else inherited.value;
        spec := spec.(budget := spec.budget.(maxTokens := Some(ceiling)));
      }
      if d.sound && ValidSpec(spec) {
        return Some(spec);
      }
      return None;
    }

    // ---------------------------------------------------------------- delivery

    /** Delivers what `t` depends on, or says why it cannot start yet. */
    method DeliverDependencies(t: TaskId, sound: set<TaskId>) returns (d: Dependency)
      modifies store
      ensures (store.View(), d) == Deliver(old(store.View()), t, sound)
    {
      var found := LatestChild(store.children, t);
      if found.None? || found.value.dependencies == [] {
        return Ready;
      }
      var row := found.value;
      ghost var before := store.View();
      var i := 0;
      while i < |row.dependencies|
        invariant 0 <= i <= |row.dependencies|
        invariant DeliverFrom(before, row, row.dependencies, sound) == DeliverFrom(store.View(), row, row.dependencies[i..], sound)
      {
        assert row.dependencies[i..][1..] == row.dependencies[i + 1..];
        var source := SourceChild(store.children, row.root, row.dependencies[i], row.revision);
        if source.None? {
          RefuseDependency(row, row.task);
          return Blocked;
        }
        var s := source.value.task;
        if s in store.tasks && !Terminal(store.tasks[s].status) {
          return Dependency.Waiting;
        }
        if s !in store.tasks || !store.tasks[s].status.Succeeded? || s !in sound {
          RefuseDependency(row, s);
          return Blocked;
        }
        if (s, row.task) !in store.transfers {
          store.transfers := store.transfers[(s, row.task) := Delivered];
        }
        i := i + 1;
      }
      assert row.dependencies[i..] == [];
      store.Note(t, DependenciesDelivered);
      return Ready;
    }

    /** A failed transfer is recorded, ends its Pending consumer and is noted on the workflow. */
    method RefuseDependency(row: Child, source: TaskId)
      modifies store
      ensures store.View() == WorkflowOps.RefuseDependency(old(store.View()), row, source)
    {
      if (source, row.task) !in store.transfers {
        store.transfers := store.transfers[(source, row.task) := Undelivered];
      }
      if row.task in store.tasks && store.tasks[row.task].status.Pending? {
        store.tasks := store.tasks[row.task := store.tasks[row.task].(
          status := Status.Failed, reason := Some(DependencyFailed), finishedAt := Some(store.clock))];
      }
      if row.root in store.roots {
        store.roots := store.roots[row.root := store.roots[row.root].(reason := Some(DependencyFailed))];
      }
      store.Note(row.task, DependencyRefused);
    }

    // ----------------------------------------------------------------- budgets

    /** Counts one more attempt on the workflow of `t`, unless its budgets admit none. */
    method ClaimAttempt(t: TaskId) returns (claimed: bool)
      modifies store
      ensures (store.View(), claimed) == WorkflowOps.ClaimAttempt(old(store.View()), t)
    {
      var row := LatestChild(store.children, t);
      if row.None? || row.value.root !in store.roots {
        return true;
      }
      var root := store.roots[row.value.root];
      var reason := None;
      if root.maxTokens.Some? && root.tokensUsed >= root.maxTokens.value {
        reason := Some(TokensExhausted);
      } else if root.state.RootFailed? {
        reason := Some(root.reason.GetOr(WorkflowFailed));
      } else if root.attemptsUsed >= root.maxAttempts {
        reason := Some(AttemptsExhausted);
      }
      if reason.Some? {
        if t in store.tasks && store.tasks[t].status.Pending? {
          store.tasks := store.tasks[t := store.tasks[t].(status := Status.Failed, reason := reason, finishedAt := Some(store.clock))];
        }
        store.Note(t, TaskFinished);
        return false;
      }
      store.roots := store.roots[row.value.root := root.(attemptsUsed := root.attemptsUsed + 1)];
      return true;
    }

    /** Adds a settled attempt's usage to the workflow of `t`; beyond its tokens the workflow fails. */
    method RecordUsage(t: TaskId, tokens: nat)
      modifies store`roots
      ensures store.View() == old(store.View()).(roots := WorkflowOps.RecordUsage(old(store.roots), store.children, t, tokens))
    {
      var row := LatestChild(store.children, t);
      if row.None? || row.value.root !in store.roots {
        return;
      }
      var root := store.roots[row.value.root];
      root := root.(tokensUsed := root.tokensUsed + tokens);
      if root.maxTokens.Some? && root.tokensUsed > root.maxTokens.value {
        root := root.(state := RootFailed, reason := Some(TokensExhausted));
      }
      store.roots := store.roots[row.value.root := root];
    }

    // ---------------------------------------------------------- plan settlement

    /** What launched open children still hold of the workflow's tokens. */
    method HeldTokens(ids: seq<TaskId>) returns (held: nat)
      requires forall t :: t in ids ==> t in store.tasks
      ensures held == WorkflowOps.HeldTokens(store.View(), ids)
    {
      held := 0;
      var i := 0;
      while i < |ids|
        invariant 0 <= i <= |ids| && held == WorkflowOps.HeldTokens(store.View(), ids[..i])
      {
        assert ids[..i + 1][..i] == ids[..i];
        if !Unstarted(store.View(), ids[i]) {
          held := held + Unspent(store.tasks[ids[i]]);
        }
        i := i + 1;
      }
      assert ids[..|ids|] == ids;
    }

    /** The equal share of what explicit siblings leave; None when nobody needs one. */
    method Share(r: TaskId, available: Option<int>, cs: seq<PlanChild>) returns (share: Option<int>)
      requires r in store.roots
      ensures share == WorkflowOps.Share(store.View(), r, available, cs)
    {
      var implicit, explicit := 0, 0;
      var i := 0;
      while i < |cs|
        invariant 0 <= i <= |cs|
        invariant implicit == ImplicitCount(store.View(), r, cs[..i]) && explicit == ExplicitTokens(store.View(), r, cs[..i])
      {
        assert cs[..i + 1][..i] == cs[..i];
        if CarrySource(store.View(), r, cs[i].id, store.roots[r].planRevision).None? {
          if cs[i].task.budget.maxTokens.None? {
            implicit := implicit + 1;
          } else {
            explicit := explicit + cs[i].task.budget.maxTokens.value.GetOr(0);
          }
        }
        i := i + 1;
      }
      assert cs[..|cs|] == cs;
      if available.None? || implicit == 0 {
        return None;
      }
      return Some((available.value - explicit) / implicit);
    }

    method PrepareChild(r: TaskId, c: PlanChild, share: Option<int>, bounded: bool) returns (p: Option<Prepared>)
      requires r in store.roots
      ensures p == WorkflowOps.PrepareChild(store.View(), r, c, share, bounded)
    {
      var carried := CarrySource(store.View(), r, c.id, store.roots[r].planRevision);
      var spec := ChildSpec(store.roots[r].authority, c.task, if carried.None? then share else None, bounded);
      hide WorkflowOps.ChildSpec, CarrySource;
      if spec.None? {
        return None;
      }
      return Some(Prepared(c, spec.value, carried));
    }

    /** Prepares every child in order and adds up what the fresh ones request. */
    method PrepareChildren(r: TaskId, cs: seq<PlanChild>, share: Option<int>, bounded: bool)
      returns (ps: Option<seq<Prepared>>, requested: int)
      requires r in store.roots
      ensures ps == WorkflowOps.PrepareChildren(store.View(), r, cs, share, bounded)
      ensures ps.Some? ==> requested == Requested(ps.value)
    {
      hide WorkflowOps.PrepareChild;
      var prepared: seq<Prepared> := [];
      requested := 0;
      var i := 0;
      while i < |cs|
        invariant 0 <= i <= |cs| && |prepared| == i && requested == Requested(prepared)
        invariant Some(prepared) == WorkflowOps.PrepareChildren(store.View(), r, cs[..i], share, bounded)
      {
        assert cs[..i + 1][..i] == cs[..i];
        var p := PrepareChild(r, cs[i], share, bounded);
        if p.None? {
          Refusing(store.View(), r, cs, share, bounded, i);
          return None, 0;
        }
        assert (prepared + [p.value])[..i] == prepared;
        if p.value.carried.None? {
          requested := requested + p.value.spec.budget.maxTokens.GetOr(0);
        }
        prepared := prepared + [p.value];
        i := i + 1;
      }
      assert cs[..|cs|] == cs;
      return Some(prepared), requested;
    }

    /** One refused child refuses the plan. */
    static lemma {:induction false} Refusing(db: Db, r: TaskId, cs: seq<PlanChild>, share: Option<int>, bounded: bool, i: nat)
      requires r in db.roots && i < |cs| && WorkflowOps.PrepareChild(db, r, cs[i], share, bounded).None?
      ensures WorkflowOps.PrepareChildren(db, r, cs, share, bounded).None?
    {
      var n := |cs| - 1;
      if i < n {
        Refusing(db, r, cs[..n], share, bounded, i);
      }
    }

    /** The whole decision on a plan document, before anything is written. */
    method PreparePlan(r: TaskId, doc: PlanDoc, replan: bool) returns (ps: Option<seq<Prepared>>)
      requires r in store.roots
      ensures ps == WorkflowOps.PreparePlan(store.View(), r, doc, replan)
    {
      hide WellShaped, Arranged, OrdersContiguous, WorkflowOps.HeldTokens, WorkflowOps.Share, WorkflowOps.PrepareChildren, Requested, OpenChildren;
      var root := store.roots[r];
      var open := if replan then OpenChildren(store.View(), r) else [];
      var ok, cs := ValidatePlanShape(doc, root.maxChildren);
      if !ok || (root.maxTokens.Some? && root.maxTokens.value - root.tokensUsed <= 0) || root.maxAttempts - root.attemptsUsed < 1 {
        return None;
      }
      var available := None;
      if root.maxTokens.Some? {
        OpenListed(store.View(), r);
        var held := HeldTokens(open);
        available := Some(root.maxTokens.value - root.tokensUsed - held);
        if available.value <= 0 {
          return None;
        }
      }
      var share := Share(r, available, cs);
      if share.Some? && share.value < 1 {
        return None;
      }
      var requested;
      ps, requested := PrepareChildren(r, cs, share, available.Some?);
      if ps.Some? && available.Some? && requested > available.value {
        return None;
      }
    }

    method RecordRejected(r: TaskId, doc: PlanDoc)
      requires r in store.roots
      modifies store`roots, store`events
      ensures store.View() == WorkflowOps.RecordRejected(old(store.View()), r, doc)
    {
      store.roots := store.roots[r := store.roots[r].(plans := store.roots[r].plans + [PlanRow(false, doc)])];
      if store.roots[r].planRevision == 0 {
        store.roots := store.roots[r := store.roots[r].(state := RootFailed, reason := Some(PlanInvalid))];
      }
      store.Note(r, PlanRejected);
    }

    /** Cancels a replaced child at once if it has not started, and asks it to stop otherwise. */
    method Retire(t: TaskId)
      requires t in store.tasks
      modifies store`tasks, store`attempts, store`events
      ensures store.View() == WorkflowOps.Retire(old(store.View()), t)
    {
      var unstarted, current := Unstarted(store.View(), t), store.tasks[t].current;
      store.tasks := store.tasks[t := store.tasks[t].(desired := Action.Cancel, reason := Some(ObsoleteByReplan))];
      if unstarted {
        if current.Some? && current.value in store.attempts {
          store.attempts := store.attempts[current.value := store.attempts[current.value].(
            reserved := false, settled := true, state := AttemptState.Cancelled,
            sequence := store.attempts[current.value].sequence + 1, finishedAt := Some(store.clock),
            heartbeat := store.clock, tokens := Some(0), kind := Some(Stopped))];
        }
        store.tasks := store.tasks[t := store.tasks[t].(status := Status.Cancelled, finishedAt := Some(store.clock))];
        store.Note(t, ChildCancelled);
      } else {
        store.Note(t, ChildCancelRequested);
      }
    }

    method RetireAll(ids: seq<TaskId>)
      requires forall t :: t in ids ==> t in store.tasks
      modifies store`tasks, store`attempts, store`events
      ensures store.View() == WorkflowOps.RetireAll(old(store.View()), ids)
    {
      ghost var before := store.View();
      var i := 0;
      while i < |ids|
        invariant 0 <= i <= |ids| && store.View() == WorkflowOps.RetireAll(before, ids[..i])
      {
        assert ids[..i + 1][..i] == ids[..i];
        Retire(ids[i]);
        i := i + 1;
      }
      assert ids[..|ids|] == ids;
    }

    method InsertChild(r: TaskId, revision: nat, index: nat, p: Prepared) returns (t: TaskId)
      modifies store`tasks, store`children, store`nextId, store`events
      ensures (store.View(), t) == WorkflowOps.InsertChild(old(store.View()), r, revision, index, p)
    {
      if p.carried.Some? {
        t := p.carried.value.task;
      } else {
        t := store.InsertTask(p.spec);
      }
      store.children := store.children + [Child(r, revision, index, p.child.id, t, p.child.dependencies, p.child.delivery, p.carried.Some?)];
      store.Note(t, ChildCreated);
    }

    method InsertChildren(r: TaskId, revision: nat, ps: seq<Prepared>) returns (ids: seq<TaskId>)
      modifies store`tasks, store`children, store`nextId, store`events
      ensures (store.View(), ids) == WorkflowOps.InsertChildren(old(store.View()), r, revision, ps)
    {
      ghost var before := store.View();
      ids := [];
      var i := 0;
      while i < |ps|
        invariant 0 <= i <= |ps| && (store.View(), ids) == WorkflowOps.InsertChildren(before, r, revision, ps[..i])
      {
        assert ps[..i + 1][..i] == ps[..i];
        var t := InsertChild(r, revision, i, ps[i]);
        ids := ids + [t];
        i := i + 1;
      }
      assert ps[..|ps|] == ps;
    }

    /** Settles a plan or a replan inside the caller's transaction. */
    method SettlePlan(r: TaskId, doc: PlanDoc, replan: bool) returns (receipt: Receipt)
      requires r in store.roots
      modifies store
      ensures (store.View(), receipt) == WorkflowOps.SettlePlan(old(store.View()), r, doc, replan)
    {
      hide WorkflowOps.PreparePlan, WorkflowOps.AcceptPlan, WorkflowOps.RecordRejected;
      var root := store.roots[r];
      if !replan && root.planRevision > 0 {
        store.Note(r, PlanIgnored);
        return Receipt(root.planRevision, Ignored, []);
      }
      var revision := |root.plans| + 1;
      var ps := PreparePlan(r, doc, replan);
      if ps.None? {
        RecordRejected(r, doc);
        return Receipt(revision, Rejected, []);
      }
      receipt := AcceptPlan(r, doc, replan, ps.value);
    }

    /** Ends or stops replaced children, inserts the new ones and moves the root to the new revision. */
    method AcceptPlan(r: TaskId, doc: PlanDoc, replan: bool, ps: seq<Prepared>) returns (receipt: Receipt)
      requires r in store.roots
      modifies store
      ensures (store.View(), receipt) == WorkflowOps.AcceptPlan(old(store.View()), r, doc, replan, ps)
    {
      hide WorkflowOps.InsertChildren, OpenChildren;
      ghost var before := store.View();
      var root := store.roots[r];
      var revision := |root.plans| + 1;
      var open := if replan then OpenChildren(store.View(), r) else [];
      OpenListed(store.View(), r);
      RetireAll(open);
      RetireFrame(before, open);
      var ids := InsertChildren(r, revision, ps);
      store.roots := store.roots[r := root.(state := Executing, planRevision := revision, reason := None,
                                            iteration := root.iteration + (if replan then 1 else 0),
                                            plans := root.plans + [PlanRow(true, doc)])];
      store.Note(r, PlanAccepted);
      return Receipt(revision, Accepted, ids);
    }

    static lemma OpenListed(db: Db, r: TaskId)
      ensures forall t :: t in OpenChildren(db, r) ==> t in db.tasks
    {
    }

    static lemma {:induction false} RetireFrame(db: Db, ids: seq<TaskId>)
      requires forall t :: t in ids ==> t in db.tasks
      ensures WorkflowOps.RetireAll(db, ids).roots == db.roots
    {
      if ids != [] {
        RetireFrame(db, ids[..|ids| - 1]);
      }
    }

    /** One recorded plan command: the same key and payload answer with the first receipt. */
    method SettlePlanCommand(r: TaskId, doc: PlanDoc, replan: bool, key: Option<Label>) returns (outcome: PlanOutcome)
      modifies store
      ensures (store.View(), outcome) == WorkflowOps.SettlePlanCommand(old(store.View()), r, doc, replan, key)
    {
      if key.Some? && key.value in store.commands {
        var c := store.commands[key.value];
        if c.payload != PlanPayload(replan, r, doc) || c.receipt.None? {
          return Declined(Conflict);
        }
        return Answer(c.receipt.value, true);
      }
      if r !in store.roots {
        return Declined(NotFound);
      }
      if !replan && store.roots[r].planRevision > 0 {
        return Declined(Conflict);
      }
      var now := store.clock;
      var receipt := SettlePlan(r, doc, replan);
      hide WorkflowOps.SettlePlan;
      if key.Some? {
        store.Record(key.value, Command(r, PlanPayload(replan, r, doc), now, Some(receipt)));
      }
      return Answer(receipt, false);
    }

    /** Accepts a workflow root and its ordinary planner task in one transaction. */
    method Create(key: Label, raw: Raw) returns (outcome: Outcome)
      modifies store
      ensures (store.View(), outcome) == CreateWorkflow(old(store.View()), key, raw)
    {
      hide ValidSpec, ValidWorkflow, PlannerSpec;
      if !Creatable(raw) {
        return Outcome.Refused(Invalid);
      }
      if key in store.commands {
        var c := store.commands[key];
        if c.payload != SubmitPayload(raw) || c.task !in store.roots {
          return Outcome.Refused(Conflict);
        }
        return Receipted(c.task, true);
      }
      var w := raw.workflow.value;
      var t := store.InsertTask(PlannerSpec(raw, w));
      store.Record(key, Command(t, SubmitPayload(raw), store.clock, None));
      store.roots := store.roots[t := Root(Planning, 0, 0, [], raw.spec, w.maxChildren, w.maxTokens, w.maxAttempts, 0, 0, None)];
      store.Note(t, WorkflowCreated);
      return Receipted(t, false);
    }
  }
}
