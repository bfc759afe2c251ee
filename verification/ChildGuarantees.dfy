/** What a plan document makes of its children, field by field, and exactly which documents are accepted. */
module ChildGuarantees {
  import opened Types
  import opened Graph
  import opened Sums
  import opened StoreOps
  import opened WorkflowOps
  import opened Invariant
  import opened PairProofs
  import opened TaskProofs
  import opened StoreProofs
  import opened SettleProofs
  import opened ScheduleProofs
  import opened RetireProofs
  import opened PlanShapes
  import opened RevisionProofs
  import opened PlanProofs
  import opened PlanGuarantees
  import opened FateGuarantees
  import opened CallerGuarantees

  // --------------------------------------------------------------- one child's contract

  /** The document's value where it writes one, the root's elsewhere. */
  predicate Takes<T(==)>(written: Option<T>, inherited: T, got: T) {
    match written
    case Some(v) => got == v
    case None => got == inherited
  }

  /** The token ceiling a child gets: the written one; else the root's, or the share if that is less. */
  predicate TakesCeiling(written: Option<Option<int>>, inherited: Option<int>, share: Option<int>, got: Option<int>) {
    match written
    case Some(ceiling) => got == ceiling
    case None =>
      && (share.None? ==> got == inherited)
      && (share.Some? && inherited.None? ==> got == share)
      && (share.Some? && inherited.Some? ==> got.Some? && got.value <= share.value && got.value <= inherited.value
                                             && (got == share || got == inherited))
  }

  predicate TakesBudget(root: Budget, d: BudgetDoc, share: Option<int>, b: Budget) {
    && Takes(d.deadlineSeconds, root.deadlineSeconds, b.deadlineSeconds)
    && Takes(d.attemptSeconds, root.attemptSeconds, b.attemptSeconds)
    && Takes(d.requestSeconds, root.requestSeconds, b.requestSeconds)
    && Takes(d.maxOutputBytes, root.maxOutputBytes, b.maxOutputBytes)
    && Takes(d.maxSteps, root.maxSteps, b.maxSteps)
    && Takes(d.outputTokens, root.outputTokens, b.outputTokens)
    && TakesCeiling(d.maxTokens, root.maxTokens, share, b.maxTokens)
  }

  predicate TakesRetry(root: Retry, d: RetryDoc, r: Retry) {
    && Takes(d.maxAttempts, root.maxAttempts, r.maxAttempts) && Takes(d.replaySafe, root.replaySafe, r.replaySafe)
    && Takes(d.backoffSeconds, root.backoffSeconds, r.backoffSeconds) && Takes(d.on, root.on, r.on)
  }

  /** `spec` is what the document writes for the child, within what the root has. */
  predicate AsWritten(root: Spec, d: ChildDoc, share: Option<int>, spec: Spec) {
    && Takes(d.runtime, root.runtime, spec.runtime) && Takes(d.workspace, root.workspace, spec.workspace)
    && Takes(d.model, root.model, spec.model) && Takes(d.sandbox, root.sandbox, spec.sandbox)
    && Takes(d.tools, root.tools, spec.tools) && Takes(d.content, root.content, spec.content)
    && TakesBudget(root.budget, d.budget, share, spec.budget)
    && TakesRetry(root.retry, d.retry, spec.retry)
  }

  /** A child may be built with this contract: the document may set its fields, lifts no bound of a bounded
      workflow, and asks for a valid contract within the root's authority. */
  predicate Buildable(root: Spec, d: ChildDoc, share: Option<int>, bounded: bool, spec: Spec) {
    && d.permitted && d.sound && (bounded ==> d.budget.maxTokens != Some(None))
    && AsWritten(root, d, share, spec) && WithinAuthority(spec, root) && ValidSpec(spec)
  }

  lemma WrittenUnique(root: Spec, d: ChildDoc, share: Option<int>, x: Spec, y: Spec)
    requires AsWritten(root, d, share, x) && AsWritten(root, d, share, y)
    ensures x == y
  {
    assert x.budget == y.budget && x.retry == y.retry;
  }

  /** The contract that the fields spell out. */
  function Written(root: Spec, d: ChildDoc, share: Option<int>): Spec {
    Spec(root.runtime, root.workspace, root.model, d.sandbox.GetOr(root.sandbox), d.tools.GetOr(root.tools),
         WithShare(MergeBudget(root.budget, d.budget), d.budget, share), MergeRetry(root.retry, d.retry), d.content.GetOr(root.content))
  }

  lemma MergesAsWritten(root: Spec, d: ChildDoc, share: Option<int>)
    requires d.runtime.GetOr(root.runtime) == root.runtime && d.workspace.GetOr(root.workspace) == root.workspace
    requires d.model.GetOr(root.model) == root.model
    ensures AsWritten(root, d, share, Written(root, d, share))
  {
  }

  lemma NamesAgree(root: Spec, d: ChildDoc, share: Option<int>, spec: Spec)
    requires AsWritten(root, d, share, spec) && WithinAuthority(spec, root)
    ensures d.runtime.GetOr(root.runtime) == root.runtime && d.workspace.GetOr(root.workspace) == root.workspace
    ensures d.model.GetOr(root.model) == root.model
  {
  }

  /** The refusals of authority, taken together: whatever is left is within the root. */
  lemma RefusalsNarrow(root: Spec, d: ChildDoc, share: Option<int>, bounded: bool)
    requires d.permitted && d.sound && (bounded ==> d.budget.maxTokens != Some(None))
    requires d.runtime.GetOr(root.runtime) == root.runtime && d.workspace.GetOr(root.workspace) == root.workspace
    requires d.model.GetOr(root.model) == root.model
    ensures var spec := Written(root, d, share);
            ChildSpec(root, d, share, bounded) == if WithinAuthority(spec, root) && ValidSpec(spec) then Some(spec) else None
  {
    hide ValidSpec;
  }

  /** A child is built with a contract if and only if it is buildable: every field as the document writes it, within
      the root.  So nothing is built exactly when no contract meets both. */
  lemma ChildAsWritten(root: Spec, d: ChildDoc, share: Option<int>, bounded: bool, spec: Spec)
    ensures ChildSpec(root, d, share, bounded) == Some(spec) <==> Buildable(root, d, share, bounded, spec)
  {
    hide ValidSpec, WithinAuthority, AsWritten, MergeBudget, MergeRetry, WithShare, Broadens, Written;
    if Buildable(root, d, share, bounded, spec) {
      NamesAgree(root, d, share, spec);
      MergesAsWritten(root, d, share);
      WrittenUnique(root, d, share, spec, Written(root, d, share));
      RefusalsNarrow(root, d, share, bounded);
    } else if ChildSpec(root, d, share, bounded) == Some(spec) {
      RefusalsNarrow(root, d, share, bounded);
      MergesAsWritten(root, d, share);
    }
  }

  // ------------------------------------------------------------------ proper documents

  predicate Unrepeated(xs: seq<Label>) {
    forall i, j :: 0 <= i < j < |xs| ==> xs[i] != xs[j]
  }

  /** The place a child asks for: its written order, or its position. */
  predicate AsksFor(cs: seq<PlanChild>, i: nat, k: nat)
    requires i < |cs|
  {
    match cs[i].order
    case Some(o) => o == k
    case None => i == k
  }

  predicate Taken(cs: seq<PlanChild>, k: nat) {
    exists i :: 0 <= i < |cs| && AsksFor(cs, i, k)
  }

  predicate Known(cs: seq<PlanChild>, id: Label) {
    exists i :: 0 <= i < |cs| && cs[i].id == id
  }

  /** Children that can be worked off one after another, every one after what it depends on. */
  predicate WorkedOff(cs: seq<PlanChild>, rank: map<Label, nat>) {
    forall c :: c in cs ==> c.id in rank && forall d :: d in c.dependencies ==> d in rank && rank[d] < rank[c.id]
  }

  predicate ProperChild(cs: seq<PlanChild>, c: PlanChild) {
    Unrepeated(c.dependencies) && Unrepeated(c.delivery.files) && forall d :: d in c.dependencies ==> Known(cs, d)
  }

  /** A plan of 1 to 1000 children within the workflow's limit, named apart, that take every place from 0 on, refer to
      each other only, and can be worked off in some order. */
  ghost predicate Proper(doc: PlanDoc, maxChildren: int) {
    && doc.Plan?
    && var cs := doc.children;
       && 1 <= |cs| <= 1000 && |cs| <= maxChildren
       && (forall i, j :: 0 <= i < j < |cs| ==> cs[i].id != cs[j].id)
       && (forall k :: 0 <= k < |cs| ==> Taken(cs, k))
       && (forall c :: c in cs ==> ProperChild(cs, c))
       && exists rank :: WorkedOff(cs, rank)
  }

  lemma SamePlaces(cs: seq<PlanChild>)
    ensures forall k :: HasOrder(cs, k) <==> Taken(cs, k)
  {
    forall k ensures HasOrder(cs, k) <==> Taken(cs, k) {
      if HasOrder(cs, k) {
        var i :| 0 <= i < |cs| && OrderOf(cs, i) == k;
        assert AsksFor(cs, i, k);
      }
      if Taken(cs, k) {
        var i :| 0 <= i < |cs| && AsksFor(cs, i, k);
        assert OrderOf(cs, i) == k;
      }
    }
  }

  /** When every place is taken, no two children ask for the same. */
  lemma PlacesDistinct(cs: seq<PlanChild>)
    requires forall k :: 0 <= k < |cs| ==> HasOrder(cs, k)
    ensures OrdersContiguous(cs)
  {
    var ks := Below(|cs|);
    forall i, j | 0 <= i < j < |cs| ensures OrderOf(cs, i) != OrderOf(cs, j) {
      PositionsFill(cs, ks, i);
      PositionsFill(cs, ks, j);
      var p :| p in ks && PositionOf(cs, p) == i;
      var q :| q in ks && PositionOf(cs, q) == j;
    }
  }

  lemma OrdersTaken(cs: seq<PlanChild>)
    ensures OrdersContiguous(cs) <==> forall k :: 0 <= k < |cs| ==> Taken(cs, k)
  {
    SamePlaces(cs);
    if forall k :: 0 <= k < |cs| ==> Taken(cs, k) {
      PlacesDistinct(cs);
    }
  }

  lemma SameChild(cs: seq<PlanChild>, c: PlanChild)
    ensures ChildShaped(cs, c) <==> ProperChild(cs, c)
  {
    assert forall d :: Knows(cs, d) <==> Known(cs, d);
  }

  lemma RankWorks(cs: seq<PlanChild>, rank: map<Label, nat>)
    requires ChildrenNamed(cs) && Ranked(PlanGraph(cs), rank)
    ensures WorkedOff(cs, rank)
  {
    forall c | c in cs ensures c.id in rank && forall d :: d in c.dependencies ==> d in rank && rank[d] < rank[c.id] {
      var i :| 0 <= i < |cs| && cs[i] == c;
      PlanGraphEdges(cs, i);
    }
  }

  lemma WorkRanks(cs: seq<PlanChild>, rank: map<Label, nat>)
    requires ChildrenNamed(cs) && WorkedOff(cs, rank)
    ensures Ranked(PlanGraph(cs), rank)
  {
    forall k | k in PlanGraph(cs) ensures k in rank && forall d :: d in PlanGraph(cs)[k] ==> d in rank && rank[d] < rank[k] {
      PlanGraphKeys(cs, k);
      var i :| 0 <= i < |cs| && cs[i].id == k;
      PlanGraphEdges(cs, i);
      assert cs[i] in cs;
    }
  }

  /** The shape check accepts exactly the proper plans. */
  lemma ProperExactly(doc: PlanDoc, maxChildren: int)
    ensures WellShaped(doc, maxChildren) <==> Proper(doc, maxChildren)
  {
    hide OrdersContiguous, ChildShaped, ProperChild, Taken, PlanGraph, Acyclic, WorkedOff, Ranked;
    if doc.Plan? {
      var cs := doc.children;
      OrdersTaken(cs);
      forall c | c in cs ensures ChildShaped(cs, c) <==> ProperChild(cs, c) {
        SameChild(cs, c);
      }
      if ChildrenNamed(cs) && forall c :: c in cs ==> ChildShaped(cs, c) {
        PlanGraphClosed(cs);
        AcyclicIffRanked(PlanGraph(cs));
        if Acyclic(PlanGraph(cs)) {
          var rank :| Ranked(PlanGraph(cs), rank);
          RankWorks(cs, rank);
        }
        if rank :| WorkedOff(cs, rank) {
          WorkRanks(cs, rank);
        }
      }
    }
  }
}
