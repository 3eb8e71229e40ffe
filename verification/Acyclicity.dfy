/** Depth-first cycle search: what it accepts and what it rejects. */
module Acyclicity {
  import opened Common

  type Graph = map<string, seq<string>>

  function Next(g: Graph, k: string): seq<string> {
    if k in g then g[k] else []
  }

  /** Consecutive elements are joined by an edge. */
  ghost predicate Chain(g: Graph, w: seq<string>) {
    forall i :: 0 <= i < |w| - 1 ==> w[i + 1] in Next(g, w[i])
  }

  /** A walk whose last node was met before: it ends by going round a cycle. */
  ghost predicate Lasso(g: Graph, w: seq<string>) {
    |w| >= 2 && Chain(g, w) && w[|w| - 1] in w[..|w| - 1]
  }

  ghost predicate CycleFrom(g: Graph, keys: seq<string>) {
    exists w :: Lasso(g, w) && w[0] in keys
  }

  /** Every node comes after all its dependencies. */
  ghost predicate TopologicalOrder(g: Graph, order: seq<string>) {
    Distinct(order) && forall i, d :: 0 <= i < |order| && d in Next(g, order[i]) ==> d in order[..i]
  }

  ghost predicate Rankable(g: Graph, keys: seq<string>) {
    exists order :: TopologicalOrder(g, order) && forall k :: k in keys ==> k in order
  }

  ghost predicate Closed(g: Graph, nodes: set<string>) {
    forall k, d :: k in nodes && d in Next(g, k) ==> d in nodes
  }

  ghost function IndexOf(s: seq<string>, x: string): (i: nat)
    requires x in s
    ensures i < |s| && s[i] == x
  {
    var i :| 0 <= i < |s| && s[i] == x; i
  }

  /** Along any walk the position in a topological order goes strictly down. */
  lemma {:induction false} WalkDescends(g: Graph, order: seq<string>, w: seq<string>, i: nat, j: nat)
    requires TopologicalOrder(g, order) && Chain(g, w) && w != [] && w[0] in order
    requires i <= j < |w|
    ensures w[i] in order && w[j] in order
    ensures i < j ==> IndexOf(order, w[j]) < IndexOf(order, w[i])
  {
    if j == 0 {
    } else if i == j {
      WalkDescends(g, order, w, j - 1, j - 1);
      StepDescends(g, order, w[j - 1], w[j]);
    } else {
      WalkDescends(g, order, w, i, j - 1);
      StepDescends(g, order, w[j - 1], w[j]);
    }
  }

  lemma StepDescends(g: Graph, order: seq<string>, a: string, b: string)
    requires TopologicalOrder(g, order) && a in order && b in Next(g, a)
    ensures b in order && IndexOf(order, b) < IndexOf(order, a)
  {
    var i := IndexOf(order, a);
    var j :| 0 <= j < i && order[..i][j] == b;
    assert order[j] == b;
  }

  lemma RankableHasNoCycle(g: Graph, keys: seq<string>)
    requires Rankable(g, keys)
    ensures !CycleFrom(g, keys)
  {
    var order :| TopologicalOrder(g, order) && forall k :: k in keys ==> k in order;
    forall w | Lasso(g, w) && w[0] in keys
      ensures false
    {
      var i :| 0 <= i < |w| - 1 && w[i] == w[|w| - 1];
      WalkDescends(g, order, w, i, |w| - 1);
    }
  }

  class CycleSearch {
    const dependencies: Graph
    var visiting: set<string>
    var visited: set<string>
    ghost var stack: seq<string>
    ghost var order: seq<string>

    ghost predicate Valid()
      reads this
    {
      && visiting == Elements(stack) && visited == Elements(order) && visiting !! visited
      && Chain(dependencies, stack) && TopologicalOrder(dependencies, order)
    }

    constructor (dependencies: Graph)
      ensures Valid() && this.dependencies == dependencies && stack == [] && order == [] && visiting == {} && visited == {}
    {
      this.dependencies := dependencies;
      visiting, visited, stack, order := {}, {}, [], [];
    }

    /** `ok` is false where the source raises; then the walk down to the key closes a cycle. */
    method Visit(key: string, ghost universe: set<string>) returns (ok: bool, ghost walk: seq<string>)
      requires Valid() && Closed(dependencies, universe) && key in universe && visiting <= universe
      requires Chain(dependencies, stack + [key])
      modifies this
      decreases universe - visiting
      ensures ok ==> Valid() && stack == old(stack) && visiting == old(visiting)
      ensures ok ==> key in visited && old(order) <= order && old(visited) <= visited
      ensures !ok ==> Lasso(dependencies, walk) && old(stack) + [key] <= walk
    {
      walk := stack + [key];
      if key in visiting {
        ghost var i := IndexOf(stack, key);
        assert walk[..|walk| - 1][i] == key;
        return false, walk;
      }
      if key in visited { return true, walk; }
      visiting, stack := visiting + {key}, stack + [key];
      var targets := Next(dependencies, key);
      for i := 0 to |targets|
        invariant Valid() && stack == old(stack) + [key] && visiting == old(visiting) + {key}
        invariant old(order) <= order && old(visited) <= visited
        invariant forall d :: d in targets[..i] ==> d in visited
      {
        assert forall d :: d in targets[..i + 1] <==> d in targets[..i] || d == targets[i];
        assert Chain(dependencies, stack + [targets[i]]);
        ok, walk := Visit(targets[i], universe);
        if !ok { return false, walk; }
      }
      assert targets[..|targets|] == targets;
      visiting, stack := visiting - {key}, old(stack);
      assert key !in order;
      var before := order;
      visited, order := visited + {key}, order + [key];
      assert order[..|before|] == before;
      assert forall i :: 0 <= i < |before| ==> order[..i] == before[..i];
      return true, walk;
    }
  }

  /** Accepts exactly when the keys can be ranked, and rejects exactly when a cycle can be reached from a key. */
  method AssertAcyclic(keys: seq<string>, dependencies: Graph) returns (ok: bool)
    ensures ok <==> Rankable(dependencies, keys)
    ensures !ok <==> CycleFrom(dependencies, keys)
  {
    var search := new CycleSearch(dependencies);
    ghost var universe := Elements(keys) + set k, d | k in dependencies && d in dependencies[k] :: d;
    for i := 0 to |keys|
      invariant fresh(search) && search.Valid() && search.stack == [] && search.visiting == {}
      invariant search.dependencies == dependencies
      invariant forall k :: k in keys[..i] ==> k in search.visited
    {
      ghost var walk;
      ok, walk := search.Visit(keys[i], universe);
      if !ok {
        assert walk[0] == keys[i];
        if Rankable(dependencies, keys) { RankableHasNoCycle(dependencies, keys); }
        return false;
      }
      assert forall k :: k in keys[..i + 1] <==> k in keys[..i] || k == keys[i];
    }
    assert keys[..|keys|] == keys;
    assert forall k :: k in keys ==> k in search.order;
    RankableHasNoCycle(dependencies, keys);
    return true;
  }
}
