/** Dependency graphs of plans and native job sets, and the depth-first check that
    accepts exactly the acyclic ones. */
module Graph {
  import opened Types

  type Edges = map<Label, set<Label>>

  ghost predicate Closed(g: Edges) {
    forall k :: k in g ==> g[k] <= g.Keys
  }

  /** A walk along dependency edges inside the graph. */
  ghost predicate Walk(g: Edges, p: seq<Label>) {
    && p != []
    && (forall i :: 0 <= i < |p| ==> p[i] in g)
    && (forall i :: 0 <= i < |p| - 1 ==> p[i + 1] in g[p[i]])
  }

  ghost predicate Acyclic(g: Edges) {
    forall p :: Walk(g, p) && |p| > 1 ==> p[0] != p[|p| - 1]
  }

  // --------------------------------------------------------- acyclic means progress

  lemma {:induction false} DistinctFit(p: seq<Label>, s: set<Label>)
    requires forall i :: 0 <= i < |p| ==> p[i] in s
    requires forall i, j :: 0 <= i < j < |p| ==> p[i] != p[j]
    ensures |p| <= |s|
  {
    if p != [] {
      var n := |p| - 1;
      DistinctFit(p[..n], s - {p[n]});
    }
  }

  /** A walk that visits a node twice contains a cycle. */
  lemma RepeatIsCycle(g: Edges, p: seq<Label>, i: nat, j: nat)
    requires Walk(g, p) && i < j < |p| && p[i] == p[j]
    ensures !Acyclic(g)
  {
    var q := p[i..j + 1];
    assert Walk(g, q);
  }

  /** If every node of `s` depends on a node of `s`, walks inside it have any length. */
  lemma {:induction false} EndlessWalk(g: Edges, s: set<Label>, n: nat) returns (p: seq<Label>)
    requires s != {} && s <= g.Keys && n > 0
    requires forall k :: k in s ==> g[k] * s != {}
    ensures Walk(g, p) && |p| == n && forall i :: 0 <= i < n ==> p[i] in s
  {
    if n == 1 {
      var k :| k in s;
      p := [k];
    } else {
      var q := EndlessWalk(g, s, n - 1);
      var k :| k in g[q[n - 2]] * s;
      p := q + [k];
    }
  }

  /** Some node of any nonempty set of an acyclic graph depends on no other node of the set. */
  lemma AcyclicHasMinimal(g: Edges, s: set<Label>) returns (k: Label)
    requires Acyclic(g) && s != {} && s <= g.Keys
    ensures k in s && g[k] * s == {}
  {
    if forall k :: k in s ==> g[k] * s != {} {
      var p := EndlessWalk(g, s, |s| + 1);
      if forall i, j :: 0 <= i < j < |p| ==> p[i] != p[j] {
        DistinctFit(p, s);
        assert false;
      } else {
        var i, j :| 0 <= i < j < |p| && p[i] == p[j];
        RepeatIsCycle(g, p, i, j);
        assert false;
      }
    }
    k :| k in s && g[k] * s == {};
  }

  // ------------------------------------------------------------- acyclic means ranked

  /** Every node ranks above all it depends on. */
  ghost predicate Ranked(g: Edges, rank: map<Label, nat>) {
    && g.Keys <= rank.Keys
    && forall k, d :: k in g && d in g[k] ==> d in rank && rank[d] < rank[k]
  }

  lemma {:induction false} RanksFall(g: Edges, rank: map<Label, nat>, p: seq<Label>)
    requires Ranked(g, rank) && Walk(g, p) && |p| > 1
    ensures p[|p| - 1] in rank && p[0] in rank && rank[p[|p| - 1]] < rank[p[0]]
  {
    var n := |p| - 1;
    assert p[n - 1] in g && p[n] in g[p[n - 1]];
    if n > 1 {
      RanksFall(g, rank, p[..n]);
    }
  }

  /** The nodes outside `left` are ranked below `n`, closed under dependencies. */
  ghost predicate RankedOutside(g: Edges, left: set<Label>, rank: map<Label, nat>, n: nat) {
    && left <= g.Keys && rank.Keys == g.Keys - left
    && (forall k :: k in rank ==> g[k] <= rank.Keys && rank[k] < n)
    && (forall k, d :: k in rank && d in g[k] ==> rank[d] < rank[k])
  }

  lemma {:induction false} RanksRest(g: Edges, left: set<Label>, rank: map<Label, nat>, n: nat) returns (all: map<Label, nat>)
    requires Acyclic(g) && Closed(g) && RankedOutside(g, left, rank, n)
    ensures Ranked(g, all)
    decreases |left|
  {
    hide Acyclic;
    if left == {} {
      all := rank;
    } else {
      var k := AcyclicHasMinimal(g, left);
      forall d | d in g[k] ensures d in rank {
        assert d in g && d !in g[k] * left;
      }
      all := RanksRest(g, left - {k}, rank[k := n], n + 1);
    }
  }

  /** A graph is acyclic exactly when its nodes can be ranked. */
  lemma AcyclicIffRanked(g: Edges)
    requires Closed(g)
    ensures Acyclic(g) <==> exists rank :: Ranked(g, rank)
  {
    if Acyclic(g) {
      var rank := RanksRest(g, g.Keys, map[], 0);
    }
    if rank :| Ranked(g, rank) {
      forall p | Walk(g, p) && |p| > 1 ensures p[0] != p[|p| - 1] {
        RanksFall(g, rank, p);
      }
    }
  }

  // ------------------------------------------------------------- depth-first check

  /** No cycle passes through `done`, and everything it depends on is in it. */
  ghost predicate Explored(g: Edges, done: set<Label>) {
    && done <= g.Keys
    && (forall k :: k in done ==> g[k] <= done)
    && (forall p :: Walk(g, p) && |p| > 1 && p[0] in done ==> p[0] != p[|p| - 1])
  }

  lemma {:induction false} StaysExplored(g: Edges, done: set<Label>, p: seq<Label>, i: nat)
    requires Walk(g, p) && done <= g.Keys && forall k :: k in done ==> g[k] <= done
    requires 0 < i < |p| && p[1] in done
    ensures p[i] in done
  {
    if i > 1 {
      StaysExplored(g, done, p, i - 1);
      assert p[i] in g[p[i - 1]];
    }
  }

  /** A node whose dependencies are all cleared is on no cycle. */
  lemma ClearsNode(g: Edges, done: set<Label>, node: Label)
    requires Explored(g, done) && node in g && node !in done && g[node] <= done
    ensures Explored(g, done + {node})
  {
    forall p | Walk(g, p) && |p| > 1 && p[0] in done + {node} ensures p[0] != p[|p| - 1] {
      if p[0] == node {
        assert p[1] in g[p[0]];
        StaysExplored(g, done, p, |p| - 1);
      }
    }
  }

  lemma AllExplored(g: Edges)
    requires Explored(g, g.Keys)
    ensures Acyclic(g)
  {
  }

  /** The search's nodes on the current path form a walk that ends at a dependant of `node`. */
  ghost predicate Leads(g: Edges, path: seq<Label>, node: Label) {
    path != [] ==> Walk(g, path) && node in g[path[|path| - 1]]
  }

  lemma ClosesCycle(g: Edges, path: seq<Label>, node: Label)
    requires Leads(g, path, node) && node in path && node in g
    ensures !Acyclic(g)
  {
    var i :| 0 <= i < |path| && path[i] == node;
    var p := path + [node];
    assert Walk(g, p);
    RepeatIsCycle(g, p, i, |path|);
  }

  lemma PathGrows(g: Edges, path: seq<Label>, node: Label)
    requires Leads(g, path, node) && node in g
    ensures Walk(g, path + [node])
  {
  }

  class CycleSearch {
    const graph: Edges
    var visiting: set<Label>
    var visited: set<Label>

    constructor (graph: Edges)
      ensures this.graph == graph && visiting == {} && visited == {}
    {
      this.graph := graph;
      visiting, visited := {}, {};
    }

    /** False as soon as the node closes a cycle with the path that led to it. */
    method Visit(node: Label, ghost path: seq<Label>) returns (ok: bool)
      requires Closed(graph) && node in graph && Leads(graph, path, node)
      requires (forall k :: k in visiting <==> k in path) && visiting <= graph.Keys
      requires Explored(graph, visited) && visited !! visiting
      modifies this
      ensures ok ==> visiting == old(visiting) && old(visited) <= visited && node in visited
      ensures ok ==> Explored(graph, visited) && visited !! visiting
      ensures !ok ==> !Acyclic(graph)
      decreases |graph.Keys - visiting|
    {
      if node in visiting {
        ClosesCycle(graph, path, node);
        return false;
      }
      if node in visited {
        return true;
      }
      ghost var before := visiting;
      visiting := visiting + {node};
      PathGrows(graph, path, node);
      assert graph.Keys - visiting == graph.Keys - before - {node};
      var todo := graph[node];
      while todo != {}
        invariant todo <= graph[node] && graph[node] - todo <= visited
        invariant visiting == before + {node} && old(visited) <= visited
        invariant Explored(graph, visited) && visited !! visiting
      {
        var dependency :| dependency in todo;
        var seen := Visit(dependency, path + [node]);
        if !seen {
          return false;
        }
        todo := todo - {dependency};
      }
      ClearsNode(graph, visited, node);
      visiting := visiting - {node};
      visited := visited + {node};
      assert visiting == before;
      return true;
    }

    /** Accepts exactly the acyclic graphs. */
    method Check() returns (ok: bool)
      requires Closed(graph) && visiting == {} && visited == {}
      modifies this
      ensures ok <==> Acyclic(graph)
    {
      var todo := graph.Keys;
      while todo != {}
        invariant todo <= graph.Keys && graph.Keys - todo <= visited && visiting == {}
        invariant Explored(graph, visited)
      {
        var node :| node in todo;
        var seen := Visit(node, []);
        if !seen {
          return false;
        }
        todo := todo - {node};
      }
      assert visited == graph.Keys;
      AllExplored(graph);
      return true;
    }
  }
}
