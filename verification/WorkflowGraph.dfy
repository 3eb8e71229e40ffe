/** The task graph of the workflow-service example: validation that names a cycle, and the tasks that are ready. */
module WorkflowGraph {
  import opened Common
  import A = Acyclicity

  datatype Status = Pending | Ready | Running | Succeeded | Failed | Cancelled

  datatype Task = Task(status: Status, dependencies: seq<string>)

  type Tasks = map<string, Task>

  function GraphOf(tasks: Tasks): A.Graph {
    map k | k in tasks :: tasks[k].dependencies
  }

  // ---- Sorting ----

  ghost predicate Sorted(s: seq<string>) {
    forall i, j :: 0 <= i < j < |s| ==> !StringLess(s[j], s[i])
  }

  lemma NotAfter(a: string, b: string, c: string)
    requires !StringLess(b, a) && !StringLess(c, b)
    ensures !StringLess(c, a)
  {
    StringLessIsStrict(a, b);
    StringLessIsStrict(b, c);
    StringLessIsStrict(a, c);
    if a != b && b != c { StringLessIsTransitive(a, b, c); }
  }

  method Insert(s: seq<string>, x: string) returns (r: seq<string>)
    requires Sorted(s)
    ensures Sorted(r) && multiset(r) == multiset(s) + multiset{x}
  {
    var i := 0;
    while i < |s| && !StringLess(x, s[i])
      invariant i <= |s| && forall j :: 0 <= j < i ==> !StringLess(x, s[j])
    {
      i := i + 1;
    }
    hide StringLess;
    forall k | i <= k < |s|
      ensures !StringLess(s[k], x)
    {
      StringLessIsStrict(x, s[i]);
      if i < k { NotAfter(x, s[i], s[k]); }
    }
    r := s[..i] + [x] + s[i..];
    assert s == s[..i] + s[i..];
  }

  method SortStrings(s: seq<string>) returns (r: seq<string>)
    ensures Sorted(r) && multiset(r) == multiset(s) && forall x :: x in r <==> x in s
  {
    r := [];
    for i := 0 to |s|
      invariant Sorted(r) && multiset(r) == multiset(s[..i])
    {
      assert s[..i + 1] == s[..i] + [s[i]];
      r := Insert(r, s[i]);
    }
    assert s[..|s|] == s;
    forall x
      ensures x in r <==> x in s
    {
      assert x in r <==> x in multiset(r);
      assert x in s <==> x in multiset(s);
    }
  }

  /** The keys in alphabetical order. */
  method SortedKeys(tasks: Tasks) returns (keys: seq<string>)
    ensures Sorted(keys) && forall k :: k in keys <==> k in tasks
  {
    keys := [];
    var rest := tasks.Keys;
    while rest != {}
      invariant rest <= tasks.Keys && Sorted(keys)
      invariant forall k :: k in keys <==> k in tasks && k !in rest
      decreases |rest|
    {
      var k :| k in rest;
      var longer := Insert(keys, k);
      forall x
        ensures x in longer <==> x in keys || x == k
      {
        assert x in longer <==> x in multiset(longer);
        assert x in keys <==> x in multiset(keys);
      }
      keys := longer;
      rest := rest - {k};
    }
  }

  // ---- Validation ----

  /** A closed path of dependencies that meets no task twice on its way. */
  ghost predicate IsCycle(g: A.Graph, path: seq<string>) {
    && |path| >= 2 && path[0] == path[|path| - 1]
    && A.Chain(g, path) && Distinct(path[..|path| - 1])
  }

  function Missing(tasks: Tasks, dependencies: seq<string>): (r: seq<string>)
    ensures forall d :: d in r <==> d in dependencies && d !in tasks
  {
    if dependencies == [] then []
    else if dependencies[0] !in tasks then [dependencies[0]] + Missing(tasks, dependencies[1..])
    else Missing(tasks, dependencies[1..])
  }

  ghost predicate AllKnown(tasks: Tasks) {
    forall k, d :: k in tasks && d in tasks[k].dependencies ==> d in tasks
  }

  lemma CycleIsLasso(g: A.Graph, path: seq<string>)
    requires IsCycle(g, path)
    ensures A.Lasso(g, path)
  {
    assert path[..|path| - 1][0] == path[|path| - 1];
  }

  class CycleReport {
    const graph: A.Graph
    var visited: set<string>
    var active: seq<string>
    ghost var order: seq<string>

    ghost predicate Valid()
      reads this
    {
      && visited == Elements(order) && (forall k :: k in active ==> k !in visited)
      && Distinct(active) && A.Chain(graph, active) && A.TopologicalOrder(graph, order)
    }

    constructor (graph: A.Graph)
      ensures Valid() && this.graph == graph && visited == {} && active == []
    {
      this.graph := graph;
      visited, active, order := {}, [], [];
    }

    /** The reported path is empty if there is nothing to report. */
    method Visit(id: string) returns (cycle: seq<string>)
      requires Valid() && id in graph && (forall k, d :: k in graph && d in graph[k] ==> d in graph)
      requires A.Chain(graph, active + [id]) && (forall k :: k in active ==> k in graph)
      modifies this
      decreases graph.Keys - Elements(active)
      ensures cycle == [] ==> Valid() && active == old(active) && id in visited && old(order) <= order && old(visited) <= visited
      ensures cycle != [] ==> IsCycle(graph, cycle)
    {
      if id in active {
        var start :| 0 <= start < |active| && active[start] == id;
        cycle := active[start..] + [id];
        ClosesCycle(graph, active, id, start);
        return;
      }
      if id in visited { return []; }
      active := active + [id];
      var dependencies := SortStrings(graph[id]);
      for i := 0 to |dependencies|
        invariant Valid() && active == old(active) + [id]
        invariant old(order) <= order && old(visited) <= visited
        invariant forall d :: d in dependencies[..i] ==> d in visited
      {
        assert forall d :: d in dependencies[..i + 1] <==> d in dependencies[..i] || d == dependencies[i];
        assert dependencies[i] in graph[id];
        assert A.Chain(graph, active + [dependencies[i]]);
        assert id in Elements(active) && id !in Elements(old(active)) && Elements(old(active)) <= Elements(active);
        cycle := Visit(dependencies[i]);
        if cycle != [] { return; }
      }
      assert dependencies[..|dependencies|] == dependencies;
      active := active[..|active| - 1];
      assert active == old(active);
      Finish(id);
      return [];
    }

    method Finish(id: string)
      requires Valid() && id in graph && id !in visited && id !in active && forall d :: d in graph[id] ==> d in visited
      modifies this`visited, this`order
      ensures Valid() && visited == old(visited) + {id} && old(order) <= order
    {
      var before := order;
      assert id !in order;
      visited, order := visited + {id}, order + [id];
      assert order[..|before|] == before;
      assert forall i :: 0 <= i < |before| ==> order[..i] == before[..i];
    }
  }

  lemma ClosesCycle(g: A.Graph, active: seq<string>, id: string, start: nat)
    requires start < |active| && active[start] == id && Distinct(active) && A.Chain(g, active + [id])
    ensures IsCycle(g, active[start..] + [id])
  {
    var path := active[start..] + [id];
    var whole := active + [id];
    assert path == whole[start..];
    forall i | 0 <= i < |path| - 1
      ensures path[i + 1] in A.Next(g, path[i])
    {
      assert path[i] == whole[start + i] && path[i + 1] == whole[start + i + 1];
    }
    assert path[..|path| - 1] == active[start..];
  }

  datatype Verdict = Fine | Unknown(task: string, missing: seq<string>) | Cyclic(path: seq<string>)

  ghost predicate Acyclic(g: A.Graph) {
    exists order :: A.TopologicalOrder(g, order) && forall k :: k in g ==> k in order
  }

  lemma CyclicIsNotAcyclic(g: A.Graph, path: seq<string>)
    requires IsCycle(g, path) && path[0] in g
    ensures !Acyclic(g)
  {
    CycleIsLasso(g, path);
    assert A.CycleFrom(g, [path[0]]);
    if Acyclic(g) {
      var order :| A.TopologicalOrder(g, order) && forall k :: k in g ==> k in order;
      assert A.Rankable(g, [path[0]]);
      A.RankableHasNoCycle(g, [path[0]]);
    }
  }

  /** The first task, in alphabetical order, that depends on an unknown one. */
  method FindMissing(tasks: Tasks, keys: seq<string>) returns (v: Verdict)
    requires Sorted(keys) && forall k :: k in keys <==> k in tasks
    ensures v.Fine? <==> AllKnown(tasks)
    ensures !v.Fine? ==>
              && v.Unknown? && v.task in tasks && v.missing != []
              && (forall d :: d in v.missing <==> d in tasks[v.task].dependencies && d !in tasks)
              && forall k, d :: k in tasks && StringLess(k, v.task) && d in tasks[k].dependencies ==> d in tasks
  {
    for i := 0 to |keys|
      invariant forall k, d :: k in keys[..i] && d in tasks[k].dependencies ==> d in tasks
    {
      assert keys[..i + 1] == keys[..i] + [keys[i]];
      var missing := Missing(tasks, tasks[keys[i]].dependencies);
      if missing != [] {
        assert missing[0] in missing;
        missing := SortStrings(missing);
        forall k | k in tasks && StringLess(k, keys[i])
          ensures k in keys[..i]
        {
          var j :| 0 <= j < |keys| && keys[j] == k;
          StringLessIsStrict(k, k);
          assert j < i;
        }
        return Unknown(keys[i], missing);
      }
      forall d | d in tasks[keys[i]].dependencies
        ensures d in tasks
      {
        assert d !in missing;
      }
    }
    assert keys[..|keys|] == keys;
    return Fine;
  }

  /** Exactly the acyclic graphs over known tasks pass; otherwise an unknown dependency or a real cycle is named. */
  method ValidateGraph(tasks: Tasks) returns (v: Verdict)
    ensures v.Fine? <==> AllKnown(tasks) && Acyclic(GraphOf(tasks))
    ensures v.Cyclic? <==> AllKnown(tasks) && !Acyclic(GraphOf(tasks))
    ensures v.Cyclic? ==> IsCycle(GraphOf(tasks), v.path)
    ensures v.Unknown? ==> v.task in tasks && forall d :: d in v.missing <==> d in tasks[v.task].dependencies && d !in tasks
    ensures v.Unknown? ==> forall k, d :: k in tasks && StringLess(k, v.task) && d in tasks[k].dependencies ==> d in tasks
  {
    var keys := SortedKeys(tasks);
    v := FindMissing(tasks, keys);
    if !v.Fine? { return; }
    var report := new CycleReport(GraphOf(tasks));
    for i := 0 to |keys|
      invariant fresh(report) && report.Valid() && report.active == [] && report.graph == GraphOf(tasks)
      invariant forall k :: k in keys[..i] ==> k in report.visited
    {
      assert keys[i] in keys;
      assert keys[..i + 1] == keys[..i] + [keys[i]];
      var cycle := report.Visit(keys[i]);
      if cycle != [] {
        FirstIsKnown(tasks, cycle);
        CyclicIsNotAcyclic(GraphOf(tasks), cycle);
        return Cyclic(cycle);
      }
    }
    assert keys[..|keys|] == keys;
    assert forall k :: k in GraphOf(tasks) ==> k in keys && k in report.order;
    return Fine;
  }

  lemma FirstIsKnown(tasks: Tasks, path: seq<string>)
    requires IsCycle(GraphOf(tasks), path)
    ensures path[0] in GraphOf(tasks)
  {
    assert path[1] in A.Next(GraphOf(tasks), path[0]);
  }

  // ---- Ready tasks ----

  predicate IsReady(tasks: Tasks, k: string) {
    k in tasks && tasks[k].status == Pending
    && forall d :: d in tasks[k].dependencies ==> d in tasks && tasks[d].status == Succeeded
  }

  /** Looking at this task's dependencies in order meets an unknown one first. */
  ghost predicate Breaks(tasks: Tasks, k: string) {
    && k in tasks && tasks[k].status == Pending
    && exists i :: 0 <= i < |tasks[k].dependencies| && tasks[k].dependencies[i] !in tasks
                   && forall j :: 0 <= j < i ==> tasks[k].dependencies[j] in tasks && tasks[tasks[k].dependencies[j]].status == Succeeded
  }

  /** `None` where looking up an unknown dependency fails. */
  method AllSucceeded(tasks: Tasks, k: string) returns (r: Option<bool>)
    requires k in tasks && tasks[k].status == Pending
    ensures r.None? <==> Breaks(tasks, k)
    ensures r.Some? ==> (r.value <==> IsReady(tasks, k))
  {
    var dependencies := tasks[k].dependencies;
    for i := 0 to |dependencies|
      invariant forall j :: 0 <= j < i ==> dependencies[j] in tasks && tasks[dependencies[j]].status == Succeeded
    {
      if dependencies[i] !in tasks { return None; }
      if tasks[dependencies[i]].status != Succeeded { return Some(false); }
    }
    return Some(true);
  }

  method ReadyTaskIds(tasks: Tasks) returns (r: Option<seq<string>>)
    ensures r.None? <==> exists k :: Breaks(tasks, k)
    ensures r.Some? ==> Sorted(r.value) && Distinct(r.value) && forall k :: k in r.value <==> IsReady(tasks, k)
  {
    var ready: seq<string> := [];
    var rest := tasks.Keys;
    while rest != {}
      invariant rest <= tasks.Keys && Sorted(ready) && Distinct(ready)
      invariant forall k :: k in ready <==> IsReady(tasks, k) && k !in rest
      invariant forall k :: k in tasks && k !in rest ==> !Breaks(tasks, k)
      decreases |rest|
    {
      var k :| k in rest;
      if tasks[k].status == Pending {
        var ok := AllSucceeded(tasks, k);
        if ok.None? { return None; }
        if ok.value { ready := InsertNew(ready, k); }
      }
      rest := rest - {k};
    }
    return Some(ready);
  }

  method InsertNew(s: seq<string>, x: string) returns (r: seq<string>)
    requires Sorted(s) && Distinct(s) && x !in s
    ensures Sorted(r) && Distinct(r) && forall y :: y in r <==> y in s || y == x
  {
    r := Insert(s, x);
    forall y
      ensures multiset(r)[y] <= 1 && (y in r <==> y in s || y == x)
    {
      OnceEach(s, y);
      assert y in r <==> y in multiset(r);
      assert y in s <==> y in multiset(s);
      assert x in s <==> x in multiset(s);
    }
    OnceIsDistinct(r);
  }

  lemma {:induction false} OnceEach(s: seq<string>, y: string)
    requires Distinct(s)
    ensures multiset(s)[y] <= 1
  {
    if s != [] {
      var front, last := s[..|s| - 1], s[|s| - 1];
      assert s == front + [last];
      OnceEach(front, y);
      assert last !in front;
    }
  }

  lemma OnceIsDistinct(s: seq<string>)
    requires forall y :: multiset(s)[y] <= 1
    ensures Distinct(s)
  {
    forall i, j | 0 <= i < j < |s|
      ensures s[i] != s[j]
    {
      assert s == s[..i] + [s[i]] + s[i + 1..j] + [s[j]] + s[j + 1..];
      assert multiset(s) == multiset(s[..i]) + multiset{s[i]} + multiset(s[i + 1..j]) + multiset{s[j]} + multiset(s[j + 1..]);
      assert multiset(s)[s[i]] <= 1;
    }
  }
}
