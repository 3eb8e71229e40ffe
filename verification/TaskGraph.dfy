/**
 The structure of a project's task list: a decomposition tree and a dependency graph over the same
 tasks. Its waits-for relation (a task waits for its dependencies, a parent for its children) can be
 ranked, for every accepted plan and after every accepted decomposition.
 */
module TaskGraph {
  import opened Common
  import opened Schema
  import opened Validator
  import A = Acyclicity

  type Rank = map<TaskId, nat>

  ghost predicate WellNamed(project: string, t: Task) {
    && t.id == Qualified(if t.parent.Some? then t.parent.value else project, t.key)
    && |t.id| > |project|
  }

  /** The waits-for relation goes strictly down in the rank, and only known tasks are ranked. */
  ghost predicate Ranked(ts: seq<Task>, r: Rank) {
    && (forall t :: t in ts ==> t.id in r)
    && (forall t, d :: t in ts && d in t.dependencies ==> d in r && r[d] < r[t.id])
    && (forall t :: t in ts && t.parent.Some? ==> t.parent.value in r && r[t.id] < r[t.parent.value])
    && (forall id {:trigger Known(ts, id)} :: id in r ==> Known(ts, id))
  }

  ghost predicate DepthOk(ts: seq<Task>, t: Task) {
    && (t.parent.None? ==> t.depth == 0)
    && (forall p :: p in ts && IsChild(t, p.id) ==> t.depth == ChildDepth(p))
  }

  /** What never depends on task statuses. */
  ghost predicate StructuredBy(project: string, ts: seq<Task>, r: Rank) {
    && UniqueIds(ts) && Ranked(ts, r)
    && (forall t :: t in ts ==> WellNamed(project, t) && DepthOk(ts, t))
  }

  ghost predicate Structured(project: string, ts: seq<Task>) {
    exists r :: StructuredBy(project, ts, r)
  }

  /** A structured list passes the validation of a save, up to the keys and the active task. */
  lemma StructuredIsPlaced(project: string, ts: seq<Task>)
    requires Structured(project, ts)
    ensures forall i :: 0 <= i < |ts| ==> Placed(ts, ts[i])
  {
    var r :| StructuredBy(project, ts, r);
    forall t | t in ts
      ensures Placed(ts, t)
    {
      assert forall d :: d in t.dependencies ==> Known(ts, d);
      if t.parent.Some? {
        assert Known(ts, t.parent.value);
        FindKnown(ts, t.parent.value);
        assert IsChild(t, ts[Find(ts, t.parent.value)].id);
      }
    }
  }

  ghost predicate SameShape(a: Task, b: Task) {
    a.id == b.id && a.key == b.key && a.dependencies == b.dependencies && a.parent == b.parent && a.depth == b.depth
  }

  ghost predicate SameShapes(ts: seq<Task>, us: seq<Task>) {
    |ts| == |us| && forall i :: 0 <= i < |ts| ==> SameShape(ts[i], us[i])
  }

  /** The task of the other list at the same place. */
  lemma Twin(ts: seq<Task>, us: seq<Task>, u: Task) returns (t: Task)
    requires SameShapes(ts, us) && u in us
    ensures t in ts && SameShape(t, u)
  {
    var i :| 0 <= i < |us| && us[i] == u;
    t := ts[i];
  }

  lemma ShapesDecideStructure(project: string, ts: seq<Task>, us: seq<Task>)
    requires Structured(project, ts) && SameShapes(ts, us)
    ensures Structured(project, us)
    ensures UniqueKeys(ts) <==> UniqueKeys(us)
  {
    var r :| StructuredBy(project, ts, r);
    SameKnown(ts, us);
    forall u | u in us
      ensures WellNamed(project, u) && DepthOk(us, u) && u.id in r
      ensures forall d :: d in u.dependencies ==> d in r && r[d] < r[u.id]
      ensures u.parent.Some? ==> u.parent.value in r && r[u.id] < r[u.parent.value]
    {
      var t := Twin(ts, us, u);
      forall p | p in us && IsChild(u, p.id)
        ensures u.depth == p.depth + 1
      {
        var q := Twin(ts, us, p);
        assert IsChild(t, q.id);
      }
    }
    assert StructuredBy(project, us, r);
  }

  lemma SameKnown(ts: seq<Task>, us: seq<Task>)
    requires SameShapes(ts, us)
    ensures forall id :: Known(us, id) <==> Known(ts, id)
    ensures forall id :: HasChild(us, id) <==> HasChild(ts, id)
  {
    forall id
      ensures Known(us, id) <==> Known(ts, id)
      ensures HasChild(us, id) <==> HasChild(ts, id)
    {
      KnownAt(ts, us, id);
      KnownAt(us, ts, id);
    }
  }

  lemma KnownAt(ts: seq<Task>, us: seq<Task>, id: TaskId)
    requires SameShapes(ts, us)
    ensures Known(us, id) ==> Known(ts, id)
    ensures HasChild(us, id) ==> HasChild(ts, id)
  {
    if Known(us, id) {
      var u :| u in us && u.id == id;
      var t := Twin(ts, us, u);
    }
    if HasChild(us, id) {
      var u :| u in us && IsChild(u, id);
      var t := Twin(ts, us, u);
      assert IsChild(t, id);
    }
  }

  // ---- The tasks made from one accepted draft list ----

  ghost predicate ColonFreeKeys(drafts: seq<Draft>) {
    forall d :: d in drafts ==> ColonFree(d.key)
  }

  ghost predicate ColonFreeTasks(ts: seq<Task>) {
    forall t :: t in ts ==> ColonFree(t.key)
  }

  ghost predicate Made(c: Task, prefix: string, parent: Option<TaskId>, depth: nat) {
    && c.id == Qualified(prefix, c.key) && c.parent == parent && c.depth == depth
    && c.status == Pending && c.attempts == 0 && c.sessions == []
  }

  /** New tasks that depend only on each other, with a ranking of their own. */
  ghost predicate Family(cs: seq<Task>, prefix: string, parent: Option<TaskId>, depth: nat, r: Rank, bound: nat) {
    && UniqueIds(cs)
    && (forall c :: c in cs ==> Made(c, prefix, parent, depth) && c.id in r && r[c.id] < bound)
    && (forall c, d :: c in cs && d in c.dependencies ==> d in r && r[d] < r[c.id])
    && (forall id {:trigger Known(cs, id)} :: id in r ==> Known(cs, id))
  }

  ghost predicate NewFamily(cs: seq<Task>, prefix: string, parent: Option<TaskId>, depth: nat) {
    exists r, bound :: Family(cs, prefix, parent, depth, r, bound)
  }

  /** What acceptance says about the keys: they can be listed with every dependency first. */
  ghost predicate Listed(drafts: seq<Draft>, order: seq<string>) {
    && UniqueDraftKeys(drafts) && (forall i :: 0 <= i < |drafts| ==> drafts[i].key in order)
    && (forall i, k :: 0 <= i < |drafts| && k in drafts[i].dependsOn ==>
          k in order && A.IndexOf(order, k) < A.IndexOf(order, drafts[i].key))
    && (forall i :: 0 <= i < |drafts| ==> KnownDependencies(drafts, drafts[i]))
  }

  lemma AcceptedDraftsAreListed(drafts: seq<Draft>, objective: Option<string>, min: int, max: int) returns (order: seq<string>)
    requires Valid(drafts, objective, min, max)
    ensures Listed(drafts, order)
  {
    var g := KeyGraph(drafts);
    order :| A.TopologicalOrder(g, order) && WellFormed(drafts, objective, min, max)
      && forall k :: k in Keys(drafts) ==> k in order;
    forall i | 0 <= i < |drafts|
      ensures drafts[i].key in order && KnownDependencies(drafts, drafts[i])
    {
      assert Keys(drafts)[i] in order;
      assert drafts[i] in drafts;
    }
    forall i, k | 0 <= i < |drafts| && k in drafts[i].dependsOn
      ensures k in order && A.IndexOf(order, k) < A.IndexOf(order, drafts[i].key)
    {
      KeyGraphAt(drafts, i);
      A.StepDescends(g, order, drafts[i].key, k);
    }
  }

  /** Reads the key back from a qualified name. */
  ghost function KeyPart(prefix: string, id: TaskId): string {
    if |id| > |prefix| then id[|prefix| + 1..] else ""
  }

  lemma KeyPartOfQualified(prefix: string, key: string)
    ensures KeyPart(prefix, Qualified(prefix, key)) == key
  {
    assert Qualified(prefix, key)[|prefix| + 1..] == key;
  }

  /** A dependency of a made task is a sibling. */
  lemma MadeDependency(prefix: string, drafts: seq<Draft>, i: nat, d: TaskId) returns (j: nat)
    requires i < |drafts| && KnownDependencies(drafts, drafts[i])
    requires d in QualifiedAll(prefix, drafts[i].dependsOn)
    ensures j < |drafts| && d == Qualified(prefix, drafts[j].key) && drafts[j].key in drafts[i].dependsOn
  {
    var l :| 0 <= l < |drafts[i].dependsOn| && d == QualifiedAll(prefix, drafts[i].dependsOn)[l];
    var key := drafts[i].dependsOn[l];
    assert key in Keys(drafts);
    j :| 0 <= j < |Keys(drafts)| && Keys(drafts)[j] == key;
  }

  /** The ranking of the tasks made from listed drafts: the place of their key. */
  ghost function PlaceRank(prefix: string, drafts: seq<Draft>, order: seq<string>): (r: Rank)
    requires Listed(drafts, order)
    ensures forall i :: 0 <= i < |drafts| ==>
      var id := Qualified(prefix, drafts[i].key); id in r && r[id] == A.IndexOf(order, drafts[i].key)
    ensures forall id :: id in r ==> exists i :: 0 <= i < |drafts| && id == Qualified(prefix, drafts[i].key)
  {
    var ids := set i | 0 <= i < |drafts| :: Qualified(prefix, drafts[i].key);
    assert forall i :: 0 <= i < |drafts| ==> KeyPart(prefix, Qualified(prefix, drafts[i].key)) == drafts[i].key by {
      forall i | 0 <= i < |drafts| { KeyPartOfQualified(prefix, drafts[i].key); }
    }
    map id | id in ids :: if KeyPart(prefix, id) in order then A.IndexOf(order, KeyPart(prefix, id)) else 0
  }

  lemma ListedDraftRank(prefix: string, drafts: seq<Draft>, order: seq<string>, i: nat, d: TaskId)
    requires Listed(drafts, order) && i < |drafts| && d in QualifiedAll(prefix, drafts[i].dependsOn)
    ensures var r := PlaceRank(prefix, drafts, order);
      d in r && Qualified(prefix, drafts[i].key) in r && r[d] < r[Qualified(prefix, drafts[i].key)]
  {
    var j := MadeDependency(prefix, drafts, i, d);
  }

  lemma ListedDraftsRank(prefix: string, parent: Option<TaskId>, depth: nat, drafts: seq<Draft>,
                         order: seq<string>, clock: nat -> int, r: Rank)
    requires Listed(drafts, order) && r == PlaceRank(prefix, drafts, order)
    ensures var cs := ToTasks(prefix, parent, depth, drafts, clock);
      && (forall c, d :: c in cs && d in c.dependencies ==> d in r && c.id in r && r[d] < r[c.id])
      && (forall id :: id in r ==> Known(cs, id))
  {
    var cs := ToTasks(prefix, parent, depth, drafts, clock);
    forall c, d | c in cs && d in c.dependencies
      ensures d in r && c.id in r && r[d] < r[c.id]
    {
      var i :| 0 <= i < |cs| && cs[i] == c;
      ListedDraftRank(prefix, drafts, order, i, d);
    }
    forall id | id in r
      ensures Known(cs, id)
    {
      var i :| 0 <= i < |drafts| && id == Qualified(prefix, drafts[i].key);
      assert cs[i] in cs;
    }
  }

  lemma ListedDraftsMade(prefix: string, parent: Option<TaskId>, depth: nat, drafts: seq<Draft>,
                         order: seq<string>, clock: nat -> int, r: Rank)
    requires Listed(drafts, order) && r == PlaceRank(prefix, drafts, order)
    ensures var cs := ToTasks(prefix, parent, depth, drafts, clock);
      && UniqueIds(cs)
      && (forall c :: c in cs ==> Made(c, prefix, parent, depth) && c.id in r && r[c.id] < |order|)
  {
    var cs := ToTasks(prefix, parent, depth, drafts, clock);
    forall i, j | 0 <= i < j < |cs|
      ensures cs[i].id != cs[j].id
    {
      QualifiedInjective(prefix, drafts[i].key, drafts[j].key);
    }
    forall i | 0 <= i < |cs|
      ensures Made(cs[i], prefix, parent, depth) && cs[i].id in r && r[cs[i].id] < |order|
    {
      assert drafts[i] in drafts;
    }
  }

  lemma AcceptedDraftsMakeFamily(prefix: string, parent: Option<TaskId>, depth: nat, drafts: seq<Draft>,
                                 objective: Option<string>, min: int, max: int, clock: nat -> int)
    requires Valid(drafts, objective, min, max)
    ensures NewFamily(ToTasks(prefix, parent, depth, drafts, clock), prefix, parent, depth)
  {
    var order := AcceptedDraftsAreListed(drafts, objective, min, max);
    var r := PlaceRank(prefix, drafts, order);
    ListedDraftsMade(prefix, parent, depth, drafts, order, clock, r);
    ListedDraftsRank(prefix, parent, depth, drafts, order, clock, r);
    assert Family(ToTasks(prefix, parent, depth, drafts, clock), prefix, parent, depth, r, |order|);
  }

  lemma FamilyIsStructured(project: string, ts: seq<Task>)
    requires NewFamily(ts, project, None, 0)
    ensures Structured(project, ts)
  {
    var r, bound :| Family(ts, project, None, 0, r, bound);
    assert forall t :: t in ts ==> Made(t, project, None, 0);
    assert StructuredBy(project, ts, r);
  }

  /** An accepted plan becomes a well-structured task list. */
  lemma PlanIsStructured(project: string, drafts: seq<Draft>, min: int, max: int, clock: nat -> int)
    requires Valid(drafts, None, min, max)
    ensures Structured(project, PlanTasks(project, drafts, clock))
    ensures NewFamily(PlanTasks(project, drafts, clock), project, None, 0)
  {
    AcceptedDraftsMakeFamily(project, None, 0, drafts, None, min, max, clock);
    FamilyIsStructured(project, PlanTasks(project, drafts, clock));
  }

  // ---- Decomposition ----

  /** Without colons in the keys the children of `p` are new: no task carries one of their ids. */
  lemma ChildIdsAreFresh(project: string, ts: seq<Task>, p: Task, key: string)
    requires p in ts && !HasChild(ts, p.id) && ColonFree(key) && ColonFreeTasks(ts)
    requires forall t :: t in ts ==> WellNamed(project, t)
    ensures !Known(ts, Qualified(p.id, key))
  {
    assert WellNamed(project, p);
    forall t | t in ts
      ensures t.id != Qualified(p.id, key)
    {
      var owner := if t.parent.Some? then t.parent.value else project;
      assert t.parent.Some? ==> IsChild(t, owner);
      if t.id == Qualified(p.id, key) {
        QualifiedNameIsInjective(p.id, key, owner, t.key);
        assert false;
      }
    }
  }

  lemma AppendedKnown(ts: seq<Task>, us: seq<Task>, id: TaskId)
    ensures Known(ts + us, id) <==> Known(ts, id) || Known(us, id)
  {
    if Known(ts, id) {
      var t :| t in ts && t.id == id;
      assert t in ts + us;
    }
    if Known(us, id) {
      var t :| t in us && t.id == id;
      assert t in ts + us;
    }
  }

  /**
   The ranking survives a decomposition: the children take the low ranks and everything else moves up.
   It needs that children depend on siblings only and that nothing depended on them before.
   */
  lemma DecompositionKeepsRank(ts: seq<Task>, p: Task, cs: seq<Task>, r: Rank, f: Rank, bound: nat) returns (s: Rank)
    requires Ranked(ts, r) && p in ts
    requires Family(cs, p.id, Some(p.id), ChildDepth(p), f, bound)
    requires forall c :: c in cs ==> c.id !in r
    ensures Ranked(ts + cs, s)
  {
    forall id | id in f
      ensures id !in r
    {
      assert Known(cs, id);
    }
    s := map id | id in r.Keys + f.Keys :: if id in f then f[id] else r[id] + bound;
    forall t | t in ts
      ensures t.id in s && s[t.id] == r[t.id] + bound
      ensures forall d :: d in t.dependencies ==> d in s && s[d] < s[t.id]
      ensures t.parent.Some? ==> t.parent.value in s && s[t.id] < s[t.parent.value]
    {
    }
    forall c | c in cs
      ensures c.id in s && s[c.id] == f[c.id]
      ensures forall d :: d in c.dependencies ==> d in s && s[d] < s[c.id]
      ensures c.parent == Some(p.id) && s[c.id] < s[p.id]
    {
      assert Made(c, p.id, Some(p.id), ChildDepth(p));
    }
    forall id | id in s
      ensures Known(ts + cs, id)
    {
      AppendedKnown(ts, cs, id);
    }
  }

  /** No task has an id of the others. */
  ghost predicate IdsApart(ts: seq<Task>, cs: seq<Task>) {
    forall t, c :: t in ts && c in cs ==> t.id != c.id
  }

  /** A family fits below a task if its ids are not in use. */
  lemma FamilyKeepsStructure(project: string, ts: seq<Task>, p: Task, cs: seq<Task>, r: Rank) returns (s: Rank)
    requires StructuredBy(project, ts, r) && p in ts && IdsApart(ts, cs)
    requires NewFamily(cs, p.id, Some(p.id), ChildDepth(p))
    ensures StructuredBy(project, ts + cs, s)
  {
    var f, bound :| Family(cs, p.id, Some(p.id), ChildDepth(p), f, bound);
    var us := ts + cs;
    assert WellNamed(project, p);
    forall c | c in cs
      ensures Made(c, p.id, Some(p.id), ChildDepth(p)) && c.id !in r && WellNamed(project, c)
    {
      assert c.id in r ==> Known(ts, c.id);
    }
    s := DecompositionKeepsRank(ts, p, cs, r, f, bound);
    forall t | t in us
      ensures DepthOk(us, t)
    {
      forall q | q in us && IsChild(t, q.id)
        ensures t.depth == q.depth + 1
      {
        OwnParent(ts, p, cs, r, t, q);
      }
    }
    forall i, j | 0 <= i < j < |us|
      ensures us[i].id != us[j].id
    {
      if i < |ts| <= j { assert us[j] in cs && us[i] in ts; }
    }
  }

  /** In the longer list every task still has its own parent, at the right depth. */
  lemma OwnParent(ts: seq<Task>, p: Task, cs: seq<Task>, r: Rank, t: Task, q: Task)
    requires UniqueIds(ts) && Ranked(ts, r) && p in ts && (forall x :: x in ts ==> DepthOk(ts, x))
    requires forall c :: c in cs ==> Made(c, p.id, Some(p.id), ChildDepth(p)) && c.id !in r
    requires t in ts + cs && q in ts + cs && IsChild(t, q.id)
    ensures t.depth == q.depth + 1
  {
    if t in ts {
      assert DepthOk(ts, t);
      assert q.id in r;
    } else {
      assert q.id == p.id && p.id in r;
      FindUnique(ts, p);
      FindUnique(ts, q);
    }
  }

  /** No task has the id a child would get. */
  predicate IdsFresh(ts: seq<Task>, p: Task, drafts: seq<Draft>) {
    forall i, j :: 0 <= i < |ts| && 0 <= j < |drafts| ==> ts[i].id != Qualified(p.id, drafts[j].key)
  }

  lemma FreshIdsAreApart(ts: seq<Task>, p: Task, drafts: seq<Draft>, clock: nat -> int)
    ensures IdsFresh(ts, p, drafts) <==> IdsApart(ts, ChildTasks(p, drafts, clock))
    ensures IdsFresh(ts, p, drafts) <== UniqueIds(ts + ChildTasks(p, drafts, clock))
  {
    var cs := ChildTasks(p, drafts, clock);
    if IdsApart(ts, cs) {
      forall i, j | 0 <= i < |ts| && 0 <= j < |drafts|
        ensures ts[i].id != Qualified(p.id, drafts[j].key)
      {
        assert ts[i] in ts && cs[j] in cs;
      }
    }
    if UniqueIds(ts + cs) {
      forall i, j | 0 <= i < |ts| && 0 <= j < |drafts|
        ensures ts[i].id != Qualified(p.id, drafts[j].key)
      {
        var l := |ts| + j;
        assert (ts + cs)[i] == ts[i] && (ts + cs)[l] == cs[j];
      }
    }
  }

  /**
   An accepted decomposition keeps ids unique and well formed, depths correct, dependencies known and the waits-for
   relation acyclic, if and only if no task has the id a child gets.
   */
  lemma DecompositionKeepsStructure(project: string, ts: seq<Task>, p: Task, drafts: seq<Draft>, objective: string,
                                    min: int, max: int, clock: nat -> int)
    requires Structured(project, ts) && p in ts && Valid(drafts, Some(objective), min, max)
    ensures Structured(project, ts + ChildTasks(p, drafts, clock)) <==> IdsFresh(ts, p, drafts)
  {
    var cs := ChildTasks(p, drafts, clock);
    AcceptedDraftsMakeFamily(p.id, Some(p.id), ChildDepth(p), drafts, Some(objective), min, max, clock);
    FreshIdsAreApart(ts, p, drafts, clock);
    var r :| StructuredBy(project, ts, r);
    if IdsFresh(ts, p, drafts) {
      var s := FamilyKeepsStructure(project, ts, p, cs, r);
    }
  }
}
