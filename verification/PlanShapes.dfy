/** What an accepted plan document and its prepared children guarantee. */
module PlanShapes {
  import opened Types
  import opened Graph
  import opened StoreOps
  import opened WorkflowOps
  import opened Invariant

  // ------------------------------------------------------------------ authority

  /** A prepared child is never wider than its root, whatever the plan asks for. */
  lemma ChildSpecNarrows(root: Spec, d: ChildDoc, share: Option<int>, bounded: bool)
    requires ChildSpec(root, d, share, bounded).Some?
    ensures var spec := ChildSpec(root, d, share, bounded).value;
            WithinAuthority(spec, root) && ValidSpec(spec)
  {
    var spec := ChildSpec(root, d, share, bounded).value;
    assert WithinBudget(MergeBudget(root.budget, d.budget), root.budget);
    hide ValidSpec;
  }

  /** Under a bounded workflow every fresh child has a ceiling: its own, or at most the share. */
  lemma ChildSpecCeiling(root: Spec, d: ChildDoc, share: Option<int>)
    requires ChildSpec(root, d, share, true).Some?
    requires d.budget.maxTokens.None? ==> share.Some?
    ensures var ceiling := ChildSpec(root, d, share, true).value.budget.maxTokens;
            && ceiling.Some?
            && (d.budget.maxTokens.Some? ==> Some(ceiling) == d.budget.maxTokens)
            && (d.budget.maxTokens.None? ==> ceiling.value <= share.value)
  {
    hide ValidSpec, Broadens;
  }

  // --------------------------------------------------------------- token division

  /** Fresh children together request their written ceilings and one share each for the rest. */
  lemma {:induction false} RequestedAtMost(db: Db, r: TaskId, cs: seq<PlanChild>, share: Option<int>)
    requires r in db.roots && PrepareChildren(db, r, cs, share, true).Some?
    requires ImplicitCount(db, r, cs) > 0 ==> share.Some?
    ensures Requested(PrepareChildren(db, r, cs, share, true).value)
            <= ExplicitTokens(db, r, cs) + ImplicitCount(db, r, cs) * share.GetOr(0)
  {
    hide ChildSpec, CarrySource;
    if cs != [] {
      var n := |cs| - 1;
      RequestedAtMost(db, r, cs[..n], share);
      var ps := PrepareChildren(db, r, cs, share, true).value;
      assert ps[..n] == PrepareChildren(db, r, cs[..n], share, true).value;
      PreparedCeiling(db, r, cs[n], share);
      Distribute(ImplicitCount(db, r, cs[..n]), share.GetOr(0));
    }
  }

  /** What one prepared child requests: what the plan wrote, or at most the share. */
  lemma PreparedCeiling(db: Db, r: TaskId, c: PlanChild, share: Option<int>)
    requires r in db.roots && PrepareChild(db, r, c, share, true).Some?
    requires Fresh(db, r, c) && c.task.budget.maxTokens.None? ==> share.Some?
    ensures var p := PrepareChild(db, r, c, share, true).value;
            && (p.carried.None? <==> Fresh(db, r, c))
            && (Fresh(db, r, c) ==> p.spec.budget.maxTokens.Some?)
            && (Fresh(db, r, c) && c.task.budget.maxTokens.Some? ==> c.task.budget.maxTokens == Some(p.spec.budget.maxTokens))
            && (Fresh(db, r, c) && c.task.budget.maxTokens.None? ==> p.spec.budget.maxTokens.value <= share.value)
  {
    hide ChildSpec, CarrySource;
    if Fresh(db, r, c) {
      ChildSpecCeiling(db.roots[r].authority, c.task, share);
    }
  }

  lemma Distribute(n: int, x: int)
    ensures (n + 1) * x == n * x + x
  {
  }

  lemma FloorFits(rest: int, n: int)
    requires n > 0
    ensures n * (rest / n) <= rest
  {
  }

  /** Floor division never hands out more than what is left: the final sum check can
      reject a plan only when every fresh child names its own ceiling. */
  lemma ShareFits(db: Db, r: TaskId, available: Option<int>, cs: seq<PlanChild>)
    requires r in db.roots && available.Some? && Share(db, r, available, cs).Some?
    requires PrepareChildren(db, r, cs, Share(db, r, available, cs), true).Some?
    ensures Requested(PrepareChildren(db, r, cs, Share(db, r, available, cs), true).value) <= available.value
  {
    hide PrepareChildren, Requested, ImplicitCount, ExplicitTokens;
    var n, rest := ImplicitCount(db, r, cs), available.value - ExplicitTokens(db, r, cs);
    var share := Share(db, r, available, cs);
    RequestedAtMost(db, r, cs, share);
    assert share == Some(rest / n);
    FloorFits(rest, n);
  }

  /** A fresh child without its own ceiling makes the plan divide a share. */
  lemma {:induction false} ImplicitCounted(db: Db, r: TaskId, cs: seq<PlanChild>, c: PlanChild)
    requires r in db.roots && c in cs && Fresh(db, r, c) && c.task.budget.maxTokens.None?
    ensures ImplicitCount(db, r, cs) > 0
  {
    var n := |cs| - 1;
    if c != cs[n] {
      assert cs == cs[..n] + [cs[n]];
      ImplicitCounted(db, r, cs[..n], c);
    }
  }

  // ----------------------------------------------------------------- plan graphs

  lemma {:induction false} PlanGraphKeys(cs: seq<PlanChild>, k: Label)
    ensures k in PlanGraph(cs) <==> Knows(cs, k)
  {
    if cs != [] {
      var n := |cs| - 1;
      PlanGraphKeys(cs[..n], k);
      if Knows(cs[..n], k) {
        var i :| 0 <= i < n && cs[..n][i].id == k;
        assert cs[i].id == k;
      }
      if Knows(cs, k) && k != cs[n].id {
        var i :| 0 <= i < |cs| && cs[i].id == k;
        assert cs[..n][i].id == k;
      }
    }
  }

  lemma {:induction false} PlanGraphEdges(cs: seq<PlanChild>, i: nat)
    requires ChildrenNamed(cs) && i < |cs|
    ensures cs[i].id in PlanGraph(cs) && PlanGraph(cs)[cs[i].id] == (set d | d in cs[i].dependencies)
  {
    var n := |cs| - 1;
    if i < n {
      PlanGraphEdges(cs[..n], i);
    }
  }

  lemma PlanGraphClosed(cs: seq<PlanChild>)
    requires ChildrenNamed(cs) && forall c :: c in cs ==> ChildShaped(cs, c)
    ensures Closed(PlanGraph(cs))
  {
    forall k | k in PlanGraph(cs) ensures PlanGraph(cs)[k] <= PlanGraph(cs).Keys {
      PlanGraphKeys(cs, k);
      var i :| 0 <= i < |cs| && cs[i].id == k;
      PlanGraphEdges(cs, i);
      forall d | d in PlanGraph(cs)[k] ensures d in PlanGraph(cs) {
        assert ChildShaped(cs, cs[i]);
        PlanGraphKeys(cs, d);
      }
    }
  }

  // ----------------------------------------------------------------- arrangement

  /** The position in the document of the child whose order is `k`. */
  ghost function PositionOf(cs: seq<PlanChild>, k: nat): (i: nat)
    requires HasOrder(cs, k)
    ensures i < |cs| && OrderOf(cs, i) == k
  {
    var i :| 0 <= i < |cs| && OrderOf(cs, i) == k; i
  }

  function Below(n: nat): (s: set<nat>)
    ensures |s| == n
    ensures forall k: nat :: k in s <==> k < n
  {
    if n == 0 then {} else Below(n - 1) + {n - 1}
  }

  ghost function Positions(cs: seq<PlanChild>, ks: set<nat>): set<nat>
    requires forall k :: k in ks ==> HasOrder(cs, k)
  {
    set k | k in ks :: PositionOf(cs, k)
  }

  lemma {:induction false} PositionsCount(cs: seq<PlanChild>, ks: set<nat>)
    requires forall k :: k in ks ==> HasOrder(cs, k)
    ensures |Positions(cs, ks)| == |ks|
    decreases ks
  {
    if ks != {} {
      var k :| k in ks;
      var p := PositionOf(cs, k);
      forall j | j in ks && j != k ensures PositionOf(cs, j) != p {}
      PositionsCount(cs, ks - {k});
      assert Positions(cs, ks) == Positions(cs, ks - {k}) + {p};
    }
  }

  lemma PositionsFill(cs: seq<PlanChild>, ks: set<nat>, i: nat)
    requires ks == Below(|cs|) && i < |cs| && forall k :: k in ks ==> HasOrder(cs, k)
    ensures i in Positions(cs, ks)
  {
    PositionsCount(cs, ks);
    var places := Positions(cs, ks);
    if i !in places {
      Fewer(places, ks, i);
    }
  }

  lemma Fewer(x: set<nat>, y: set<nat>, i: nat)
    requires x <= y && i in y && i !in x
    ensures |x| < |y|
  {
    assert y == x + {i} + (y - x - {i});
  }

  /** Every document position has an order below the number of children. */
  lemma OrdersCover(cs: seq<PlanChild>, i: nat)
    requires OrdersContiguous(cs) && i < |cs|
    ensures OrderOf(cs, i) < |cs|
  {
    var ks := Below(|cs|);
    AllOrders(cs, ks);
    PositionsFill(cs, ks, i);
  }

  lemma AllOrders(cs: seq<PlanChild>, ks: set<nat>)
    requires OrdersContiguous(cs) && ks == Below(|cs|)
    ensures forall k :: k in ks ==> HasOrder(cs, k)
  {
    hide HasOrder, OrderOf;
  }

  /** The arranged plan is the document's children, each at its order. */
  lemma ArrangedExact(cs: seq<PlanChild>, i: nat)
    requires OrdersContiguous(cs) && i < |cs|
    ensures OrderOf(cs, i) < |cs| && Arranged(cs)[OrderOf(cs, i)] == cs[i]
  {
    OrdersCover(cs, i);
    assert PlacedAt(cs, OrderOf(cs, i), Arranged(cs)[OrderOf(cs, i)]);
  }

  /** Arranged children keep distinct names, and each has its document's dependencies. */
  lemma ArrangedNamed(cs: seq<PlanChild>)
    requires OrdersContiguous(cs) && ChildrenNamed(cs)
    ensures ChildrenNamed(Arranged(cs))
    ensures forall k :: k in PlanGraph(cs) ==> Knows(Arranged(cs), k)
    ensures forall k :: 0 <= k < |cs| ==> Arranged(cs)[k].id in PlanGraph(cs)
                                          && PlanGraph(cs)[Arranged(cs)[k].id] == (set d | d in Arranged(cs)[k].dependencies)
  {
    var r := Arranged(cs);
    forall i, j | 0 <= i < j < |r| ensures r[i].id != r[j].id {
      assert PlacedAt(cs, i, r[i]) && PlacedAt(cs, j, r[j]);
    }
    forall k | k in PlanGraph(cs) ensures Knows(r, k) {
      PlanGraphKeys(cs, k);
      var i :| 0 <= i < |cs| && cs[i].id == k;
      ArrangedExact(cs, i);
    }
    forall k | 0 <= k < |cs|
      ensures r[k].id in PlanGraph(cs) && PlanGraph(cs)[r[k].id] == (set d | d in r[k].dependencies)
    {
      assert PlacedAt(cs, k, r[k]);
      var i :| 0 <= i < |cs| && OrderOf(cs, i) == k && r[k] == cs[i];
      PlanGraphEdges(cs, i);
    }
  }
}
