/**
 Completion moves up the decomposition tree: a parent is promoted when all its children are done.
 The loops compute the least set of done tasks closed under that rule.
 */
module Aggregation {
  import opened Common
  import opened Schema
  import opened TaskGraph

  /** The two aggregations: to candidate-complete, and to verified. */
  datatype Rule = CandidateRule | VerifiedRule

  predicate Done(rule: Rule, s: TaskStatus) {
    match rule
    case CandidateRule => Complete(s)
    case VerifiedRule => s == Verified
  }

  predicate Eligible(rule: Rule, t: Task) {
    match rule
    case CandidateRule => t.status == Decomposed
    case VerifiedRule => (t.status == Decomposed || t.status == CandidateComplete) && !t.contractBound
  }

  function Promoted(rule: Rule, t: Task): Task {
    match rule
    case CandidateRule => t.(status := CandidateComplete)
    case VerifiedRule => t.(status := Verified, mark := VerifiedByChildren)
  }

  predicate ChildrenDone(rule: Rule, ts: seq<Task>, id: TaskId) {
    HasChild(ts, id) && forall c :: c in ts && IsChild(c, id) ==> Done(rule, c.status)
  }

  // ---- The specification ----

  /** Only eligible tasks differ, and they are promoted. */
  ghost predicate Promotes(rule: Rule, ts: seq<Task>, us: seq<Task>) {
    |ts| == |us| && forall i :: 0 <= i < |ts| ==> us[i] == ts[i] || (Eligible(rule, ts[i]) && us[i] == Promoted(rule, ts[i]))
  }

  ghost predicate Stable(rule: Rule, us: seq<Task>) {
    forall u :: u in us && Eligible(rule, u) ==> !ChildrenDone(rule, us, u.id)
  }

  ghost predicate ChildrenWithin(ts: seq<Task>, id: TaskId, done: set<TaskId>) {
    HasChild(ts, id) && forall c :: c in ts && IsChild(c, id) ==> c.id in done
  }

  /** A set of ids that contains the done tasks and every eligible parent all of whose children it contains. */
  ghost predicate ClosedSet(rule: Rule, ts: seq<Task>, done: set<TaskId>) {
    && (forall t :: t in ts && Done(rule, t.status) ==> t.id in done)
    && (forall t :: t in ts && Eligible(rule, t) && ChildrenWithin(ts, t.id, done) ==> t.id in done)
  }

  ghost predicate DoneWithin(rule: Rule, us: seq<Task>, done: set<TaskId>) {
    forall u :: u in us && Done(rule, u.status) ==> u.id in done
  }

  /** Every done task of `us` is in every closed set: no promotion was unnecessary. */
  ghost predicate Forced(rule: Rule, ts: seq<Task>, us: seq<Task>) {
    forall done {:trigger ClosedSet(rule, ts, done)} :: ClosedSet(rule, ts, done) ==> DoneWithin(rule, us, done)
  }

  ghost predicate Aggregated(rule: Rule, ts: seq<Task>, us: seq<Task>) {
    Promotes(rule, ts, us) && Stable(rule, us) && Forced(rule, ts, us)
  }

  // ---- The loop ----

  function EligibleCount(rule: Rule, ts: seq<Task>): nat {
    if ts == [] then 0
    else EligibleCount(rule, ts[..|ts| - 1]) + if Eligible(rule, ts[|ts| - 1]) then 1 else 0
  }

  lemma {:induction false} PromotionLowersCount(rule: Rule, ts: seq<Task>, i: nat)
    requires i < |ts| && Eligible(rule, ts[i])
    ensures EligibleCount(rule, ts[i := Promoted(rule, ts[i])]) == EligibleCount(rule, ts) - 1
  {
    var n := |ts| - 1;
    var us := ts[i := Promoted(rule, ts[i])];
    if i == n {
      assert us[..n] == ts[..n];
    } else {
      PromotionLowersCount(rule, ts[..n], i);
      assert us[..n] == ts[..n][i := Promoted(rule, ts[i])];
    }
  }

  lemma PromotesKeepsShapes(rule: Rule, ts: seq<Task>, us: seq<Task>)
    requires Promotes(rule, ts, us)
    ensures SameShapes(ts, us)
  {
  }

  /** One more promotion stays inside every closed set. */
  lemma PromotionIsForced(rule: Rule, ts: seq<Task>, us: seq<Task>, i: nat, done: set<TaskId>)
    requires Promotes(rule, ts, us) && i < |us| && us[i] == ts[i] && Eligible(rule, ts[i])
    requires ChildrenDone(rule, us, us[i].id)
    requires ClosedSet(rule, ts, done) && DoneWithin(rule, us, done)
    ensures us[i].id in done
  {
    PromotesKeepsShapes(rule, ts, us);
    SameKnown(ts, us);
    assert ts[i] in ts;
    forall c | c in ts && IsChild(c, ts[i].id)
      ensures c.id in done
    {
      var j :| 0 <= j < |ts| && ts[j] == c;
      assert us[j] in us && IsChild(us[j], us[i].id);
    }
  }

  lemma PromotionStep(rule: Rule, ts: seq<Task>, us: seq<Task>, i: nat)
    requires Promotes(rule, ts, us) && i < |us| && Eligible(rule, us[i]) && ChildrenDone(rule, us, us[i].id)
    requires Forced(rule, ts, us)
    ensures Promotes(rule, ts, us[i := Promoted(rule, us[i])]) && Forced(rule, ts, us[i := Promoted(rule, us[i])])
  {
    var vs := us[i := Promoted(rule, us[i])];
    assert us[i] == ts[i];
    forall done | ClosedSet(rule, ts, done)
      ensures DoneWithin(rule, vs, done)
    {
      PromotionIsForced(rule, ts, us, i, done);
      forall v | v in vs && Done(rule, v.status)
        ensures v.id in done
      {
        var j :| 0 <= j < |vs| && vs[j] == v;
        if j != i { assert us[j] in us; }
      }
    }
  }

  ghost predicate StablePrefix(rule: Rule, us: seq<Task>, n: nat) {
    n <= |us| && forall j :: 0 <= j < n && Eligible(rule, us[j]) ==> !ChildrenDone(rule, us, us[j].id)
  }

  lemma StableOneMore(rule: Rule, us: seq<Task>, i: nat)
    requires i < |us| && StablePrefix(rule, us, i) && !(Eligible(rule, us[i]) && ChildrenDone(rule, us, us[i].id))
    ensures StablePrefix(rule, us, i + 1)
  {
  }

  lemma StableAtTheEnd(rule: Rule, us: seq<Task>)
    requires StablePrefix(rule, us, |us|)
    ensures Stable(rule, us)
  {
  }

  ghost predicate ChangedId(ts: seq<Task>, us: seq<Task>, id: TaskId)
    requires |ts| == |us|
  {
    exists j :: 0 <= j < |us| && us[j] != ts[j] && us[j].id == id
  }

  /** `changed` holds exactly the ids of the tasks that differ, each once if the ids are unique. */
  ghost predicate ChangesListed(ts: seq<Task>, us: seq<Task>, changed: seq<TaskId>) {
    && |ts| == |us| && (forall id :: id in changed <==> ChangedId(ts, us, id))
    && (UniqueIds(ts) ==> Distinct(changed))
  }

  lemma NothingChanged(rule: Rule, ts: seq<Task>)
    ensures Promotes(rule, ts, ts) && ChangesListed(ts, ts, []) && StablePrefix(rule, ts, 0)
  {
  }

  lemma UnchangedIsNotListed(rule: Rule, ts: seq<Task>, us: seq<Task>, i: nat)
    requires UniqueIds(ts) && Promotes(rule, ts, us) && i < |us| && us[i] == ts[i]
    ensures !ChangedId(ts, us, us[i].id)
  {
    assert forall j :: 0 <= j < |us| && us[j].id == us[i].id ==> ts[j].id == ts[i].id;
  }

  lemma OneMoreChange(rule: Rule, ts: seq<Task>, us: seq<Task>, changed: seq<TaskId>, i: nat)
    requires Promotes(rule, ts, us) && ChangesListed(ts, us, changed)
    requires i < |us| && us[i] == ts[i] && Eligible(rule, us[i])
    ensures Promotes(rule, ts, us[i := Promoted(rule, us[i])])
    ensures ChangesListed(ts, us[i := Promoted(rule, us[i])], changed + [us[i].id])
  {
    var vs := us[i := Promoted(rule, us[i])];
    forall id
      ensures id in changed + [us[i].id] <==> ChangedId(ts, vs, id)
    {
      if ChangedId(ts, us, id) {
        var j :| 0 <= j < |us| && us[j] != ts[j] && us[j].id == id;
        assert vs[j] != ts[j] && vs[j].id == id;
      }
      if id == us[i].id { assert vs[i] != ts[i] && vs[i].id == id; }
    }
    if UniqueIds(ts) { UnchangedIsNotListed(rule, ts, us, i); }
  }

  /** A task is promoted in one of two passes, not in both. */
  lemma ChangedOnce(rule: Rule, ts: seq<Task>, us: seq<Task>, vs: seq<Task>, id: TaskId)
    requires Promotes(rule, ts, us) && Promotes(rule, us, vs)
    ensures ChangedId(ts, vs, id) <==> ChangedId(ts, us, id) || ChangedId(us, vs, id)
    ensures UniqueIds(ts) ==> !(ChangedId(ts, us, id) && ChangedId(us, vs, id))
  {
    assert forall j :: 0 <= j < |us| && us[j] != ts[j] ==> vs[j] == us[j] != ts[j];
    if ChangedId(ts, us, id) {
      var j :| 0 <= j < |us| && us[j] != ts[j] && us[j].id == id;
      assert vs[j] != ts[j] && vs[j].id == id;
      if UniqueIds(ts) {
        assert UniqueIds(us);
        UnchangedIsNotListed(rule, us, vs, j);
      }
    }
    if ChangedId(us, vs, id) {
      var j :| 0 <= j < |us| && vs[j] != us[j] && vs[j].id == id;
      assert vs[j] != ts[j] && vs[j].id == id;
    }
  }

  lemma JoinChanges(rule: Rule, ts: seq<Task>, us: seq<Task>, vs: seq<Task>, first: seq<TaskId>, second: seq<TaskId>)
    requires Promotes(rule, ts, us) && Promotes(rule, us, vs)
    requires ChangesListed(ts, us, first) && ChangesListed(us, vs, second)
    ensures ChangesListed(ts, vs, first + second)
  {
    assert |vs| == |ts| && (UniqueIds(ts) ==> UniqueIds(us));
    hide Promotes, UniqueIds, ChangedId;
    forall id
      ensures id in first + second <==> ChangedId(ts, vs, id)
      ensures UniqueIds(ts) ==> !(id in first && id in second)
    {
      ChangedOnce(rule, ts, us, vs, id);
    }
    assert UniqueIds(ts) ==> forall i :: 0 <= i < |first| ==> first[i] !in second;
  }

  /** One pass over the list, in place. */
  method AggregatePass(state: ProjectState, rule: Rule, ghost before: seq<Task>) returns (changed: seq<TaskId>)
    requires Promotes(rule, before, state.tasks) && Forced(rule, before, state.tasks)
    modifies state`tasks
    ensures Promotes(rule, before, state.tasks) && Forced(rule, before, state.tasks)
    ensures Promotes(rule, old(state.tasks), state.tasks) && ChangesListed(old(state.tasks), state.tasks, changed)
    ensures changed == [] ==> state.tasks == old(state.tasks) && Stable(rule, state.tasks)
    ensures changed != [] ==> EligibleCount(rule, state.tasks) < EligibleCount(rule, old(state.tasks))
  {
    hide Promotes, Forced, ChangesListed, StablePrefix, EligibleCount, ChildrenDone;
    NothingChanged(rule, state.tasks);
    changed := [];
    for i := 0 to |state.tasks|
      invariant |state.tasks| == |old(state.tasks)|
      invariant Promotes(rule, before, state.tasks) && Forced(rule, before, state.tasks)
      invariant Promotes(rule, old(state.tasks), state.tasks) && state.tasks[i..] == old(state.tasks)[i..]
      invariant ChangesListed(old(state.tasks), state.tasks, changed)
      invariant changed != [] ==> EligibleCount(rule, state.tasks) < EligibleCount(rule, old(state.tasks))
      invariant changed == [] ==> state.tasks == old(state.tasks) && StablePrefix(rule, state.tasks, i)
    {
      var task := state.tasks[i];
      assert task == state.tasks[i..][0] == old(state.tasks)[i];
      if Eligible(rule, task) && ChildrenDone(rule, state.tasks, task.id) {
        PromotionStep(rule, before, state.tasks, i);
        PromotionLowersCount(rule, state.tasks, i);
        OneMoreChange(rule, old(state.tasks), state.tasks, changed, i);
        state.tasks := state.tasks[i := Promoted(rule, task)];
        changed := changed + [task.id];
      } else if changed == [] {
        StableOneMore(rule, state.tasks, i);
      }
    }
    if changed == [] { StableAtTheEnd(rule, state.tasks); }
  }

  method AggregateParents(state: ProjectState, rule: Rule) returns (changed: seq<TaskId>)
    modifies state`tasks
    ensures Aggregated(rule, old(state.tasks), state.tasks)
    ensures ChangesListed(old(state.tasks), state.tasks, changed)
  {
    changed := [];
    var updated := true;
    while updated
      invariant Promotes(rule, old(state.tasks), state.tasks) && Forced(rule, old(state.tasks), state.tasks)
      invariant ChangesListed(old(state.tasks), state.tasks, changed)
      invariant !updated ==> Stable(rule, state.tasks)
      decreases EligibleCount(rule, state.tasks) + if updated then 1 else 0
    {
      ghost var tasks := state.tasks;
      var promoted := AggregatePass(state, rule, old(state.tasks));
      JoinChanges(rule, old(state.tasks), tasks, state.tasks, changed, promoted);
      changed := changed + promoted;
      updated := promoted != [];
    }
  }

  // ---- What the specification means ----

  ghost function DoneIds(rule: Rule, us: seq<Task>): set<TaskId> {
    set u | u in us && Done(rule, u.status) :: u.id
  }

  /** The done tasks of the result are themselves a closed set, so they are the least one. */
  lemma ResultIsClosed(rule: Rule, ts: seq<Task>, us: seq<Task>)
    requires UniqueIds(ts) && Aggregated(rule, ts, us)
    ensures ClosedSet(rule, ts, DoneIds(rule, us))
  {
    var done := DoneIds(rule, us);
    PromotesKeepsShapes(rule, ts, us);
    forall t | t in ts && Done(rule, t.status)
      ensures t.id in done
    {
      var u := Twin(us, ts, t);
      FindUnique(ts, t);
      assert Done(rule, u.status);
    }
    forall t | t in ts && Eligible(rule, t) && ChildrenWithin(ts, t.id, done)
      ensures t.id in done
    {
      var i :| 0 <= i < |ts| && ts[i] == t;
      if us[i] == t {
        assert us[i] in us;
        ChildrenDoneInResult(rule, ts, us, t.id);
        assert false;
      } else {
        assert us[i] in us && Done(rule, us[i].status);
      }
    }
  }

  lemma ChildrenDoneInResult(rule: Rule, ts: seq<Task>, us: seq<Task>, id: TaskId)
    requires UniqueIds(ts) && SameShapes(ts, us) && ChildrenWithin(ts, id, DoneIds(rule, us))
    ensures ChildrenDone(rule, us, id)
  {
    SameKnown(ts, us);
    forall c | c in us && IsChild(c, id)
      ensures Done(rule, c.status)
    {
      var t := Twin(ts, us, c);
      assert IsChild(t, id);
      var u :| u in us && Done(rule, u.status) && u.id == c.id;
      FindUnique(us, u);
      FindUnique(us, c);
    }
  }

  /** Any listing of the same tasks ends with the same tasks done. */
  lemma ListOrderIrrelevant(rule: Rule, ts: seq<Task>, us: seq<Task>, ts': seq<Task>, us': seq<Task>)
    requires UniqueIds(ts) && UniqueIds(ts') && (forall t :: t in ts <==> t in ts')
    requires Aggregated(rule, ts, us) && Aggregated(rule, ts', us')
    ensures DoneIds(rule, us) == DoneIds(rule, us')
  {
    ResultIsClosed(rule, ts, us);
    ResultIsClosed(rule, ts', us');
    SameTasksSameClosedSets(rule, ts, ts', DoneIds(rule, us));
    SameTasksSameClosedSets(rule, ts', ts, DoneIds(rule, us'));
  }

  lemma SameTasksSameClosedSets(rule: Rule, ts: seq<Task>, ts': seq<Task>, done: set<TaskId>)
    requires (forall t :: t in ts <==> t in ts') && ClosedSet(rule, ts, done)
    ensures ClosedSet(rule, ts', done)
  {
    forall id
      ensures HasChild(ts, id) <==> HasChild(ts', id)
    {
    }
    assert forall t :: ChildrenWithin(ts', t, done) ==> ChildrenWithin(ts, t, done);
  }

  // ---- Leaves and subtrees ----

  /** `d` lies in the subtree of `a`, which it may be itself. */
  ghost predicate Under(ts: seq<Task>, d: Task, a: Task)
    decreases d.depth
  {
    d == a || exists p :: p in ts && IsChild(d, p.id) && p.depth < d.depth && Under(ts, p, a)
  }

  /** No done parent has an unfinished child, as in every project in which nothing was reopened. */
  ghost predicate ReopenFree(rule: Rule, ts: seq<Task>) {
    forall p, c :: p in ts && c in ts && Done(rule, p.status) && IsChild(c, p.id) ==> Done(rule, c.status)
  }

  ghost predicate LeavesDone(rule: Rule, ts: seq<Task>, a: Task) {
    forall d {:trigger Under(ts, d, a)} :: d in ts && Under(ts, d, a) && IsLeaf(ts, d) ==> Done(rule, d.status)
  }

  lemma {:induction false} UnderChild(ts: seq<Task>, d: Task, c: Task, a: Task)
    requires a in ts && IsChild(c, a.id) && a.depth < c.depth && Under(ts, d, c)
    ensures Under(ts, d, a)
    decreases d.depth
  {
    if d != c {
      var p :| p in ts && IsChild(d, p.id) && p.depth < d.depth && Under(ts, p, c);
      UnderChild(ts, p, c, a);
    }
  }

  lemma {:induction false} DoneGoesDown(rule: Rule, ts: seq<Task>, d: Task, a: Task)
    requires ReopenFree(rule, ts) && d in ts && a in ts && Done(rule, a.status) && Under(ts, d, a)
    ensures Done(rule, d.status)
    decreases d.depth
  {
    if d != a {
      var p :| p in ts && IsChild(d, p.id) && p.depth < d.depth && Under(ts, p, a);
      DoneGoesDown(rule, ts, p, a);
    }
  }

  ghost predicate KidsDone(rule: Rule, ts: seq<Task>, us: seq<Task>, id: TaskId) {
    forall c :: c in ts && IsChild(c, id) ==> c.id in DoneIds(rule, us)
  }

  /** Nothing reopened before, nothing reopened after: every promotion had all its children done. */
  lemma PromotionsStayReopenFree(rule: Rule, ts: seq<Task>, us: seq<Task>)
    requires UniqueIds(ts) && ReopenFree(rule, ts) && Aggregated(rule, ts, us)
    ensures ReopenFree(rule, us)
  {
    PromotesKeepsShapes(rule, ts, us);
    var kept := set id | id in DoneIds(rule, us) && KidsDone(rule, ts, us, id);
    KeptIsClosed(rule, ts, us, kept);
    forall p, c | p in us && c in us && Done(rule, p.status) && IsChild(c, p.id)
      ensures Done(rule, c.status)
    {
      assert p.id in kept;
      var t := Twin(ts, us, c);
      assert c.id in DoneIds(rule, us);
      var u :| u in us && Done(rule, u.status) && u.id == c.id;
      FindUnique(us, u);
      FindUnique(us, c);
    }
  }

  lemma KeptIsClosed(rule: Rule, ts: seq<Task>, us: seq<Task>, kept: set<TaskId>)
    requires UniqueIds(ts) && ReopenFree(rule, ts) && Aggregated(rule, ts, us)
    requires forall id :: id in kept <==> id in DoneIds(rule, us) && KidsDone(rule, ts, us, id)
    ensures ClosedSet(rule, ts, kept)
  {
    ResultIsClosed(rule, ts, us);
    forall t | t in ts && Done(rule, t.status)
      ensures t.id in kept
    {
      assert forall c :: c in ts && IsChild(c, t.id) ==> c.id in DoneIds(rule, us);
    }
    forall t | t in ts && Eligible(rule, t) && ChildrenWithin(ts, t.id, kept)
      ensures t.id in kept
    {
      assert ChildrenWithin(ts, t.id, DoneIds(rule, us));
    }
  }

  // ---- Done tasks and done leaves ----

  /** The leaves below every done task are done. */
  ghost predicate LeafReopenFree(rule: Rule, ts: seq<Task>) {
    forall a :: a in ts && Done(rule, a.status) ==> LeavesDone(rule, ts, a)
  }

  /** Every parent whose leaves are done is done or may be promoted. */
  ghost predicate ParentsFollow(rule: Rule, ts: seq<Task>) {
    forall p :: p in ts && HasChild(ts, p.id) && LeavesDone(rule, ts, p) ==> Done(rule, p.status) || Eligible(rule, p)
  }

  lemma ReopenFreeLeaves(rule: Rule, ts: seq<Task>)
    requires ReopenFree(rule, ts)
    ensures LeafReopenFree(rule, ts)
  {
    forall a, d | a in ts && d in ts && Done(rule, a.status) && Under(ts, d, a)
      ensures Done(rule, d.status)
    {
      DoneGoesDown(rule, ts, d, a);
    }
  }

  /** Only parents are promoted. */
  lemma PromotedHasChild(rule: Rule, ts: seq<Task>, us: seq<Task>, i: nat)
    requires UniqueIds(ts) && Aggregated(rule, ts, us) && i < |us| && us[i] != ts[i]
    ensures HasChild(ts, ts[i].id)
  {
    var done := set t | t in ts && (Done(rule, t.status) || HasChild(ts, t.id)) :: t.id;
    assert ClosedSet(rule, ts, done);
    assert us[i] in us && Done(rule, us[i].status);
    assert us[i].id in done;
    var t :| t in ts && t.id == us[i].id && (Done(rule, t.status) || HasChild(ts, t.id));
    FindUnique(ts, t);
    FindUnique(ts, ts[i]);
  }

  /** The lists agree in shape and in their leaves. */
  ghost predicate LeavesKept(ts: seq<Task>, us: seq<Task>) {
    SameShapes(ts, us) && UniqueIds(ts) && forall i :: 0 <= i < |ts| && IsLeaf(ts, ts[i]) ==> us[i] == ts[i]
  }

  lemma AggregationLeavesKept(rule: Rule, ts: seq<Task>, us: seq<Task>)
    requires UniqueIds(ts) && Aggregated(rule, ts, us)
    ensures LeavesKept(ts, us) && LeavesKept(us, ts)
  {
    PromotesKeepsShapes(rule, ts, us);
    SameKnown(ts, us);
    forall i | 0 <= i < |ts| && us[i] != ts[i]
      ensures HasChild(ts, ts[i].id)
    {
      PromotedHasChild(rule, ts, us, i);
    }
  }

  lemma {:induction false} UnderTwin(ts: seq<Task>, us: seq<Task>, i: nat, j: nat)
    requires SameShapes(ts, us) && UniqueIds(ts) && i < |ts| && j < |ts| && Under(ts, ts[i], ts[j])
    ensures Under(us, us[i], us[j])
    decreases ts[i].depth
  {
    if ts[i] != ts[j] {
      var p :| p in ts && IsChild(ts[i], p.id) && p.depth < ts[i].depth && Under(ts, p, ts[j]);
      var m :| 0 <= m < |ts| && ts[m] == p;
      UnderTwin(ts, us, m, j);
      assert us[m] in us && IsChild(us[i], us[m].id);
    }
  }

  lemma LeavesDoneTwin(rule: Rule, ts: seq<Task>, us: seq<Task>, j: nat)
    requires LeavesKept(ts, us) && j < |ts| && LeavesDone(rule, us, us[j])
    ensures LeavesDone(rule, ts, ts[j])
  {
    SameKnown(ts, us);
    forall d | d in ts && Under(ts, d, ts[j]) && IsLeaf(ts, d)
      ensures Done(rule, d.status)
    {
      var i :| 0 <= i < |ts| && ts[i] == d;
      UnderTwin(ts, us, i, j);
      assert us[i] in us && IsLeaf(us, us[i]);
    }
  }

  /** Whatever lies strictly below a task lies below one of its children. */
  lemma {:induction false} BelowAChild(ts: seq<Task>, d: Task, a: Task) returns (c: Task)
    requires d in ts && Under(ts, d, a) && d != a
    ensures c in ts && IsChild(c, a.id) && Under(ts, d, c)
    decreases d.depth
  {
    var p :| p in ts && IsChild(d, p.id) && p.depth < d.depth && Under(ts, p, a);
    if p == a {
      c := d;
    } else {
      c := BelowAChild(ts, p, a);
    }
  }

  ghost predicate LeavesDoneAt(rule: Rule, ts: seq<Task>, id: TaskId) {
    forall a :: a in ts && a.id == id ==> LeavesDone(rule, ts, a)
  }

  lemma LeavesDoneUpwards(rule: Rule, ts: seq<Task>, t: Task)
    requires HasChild(ts, t.id) && forall c :: c in ts && IsChild(c, t.id) ==> LeavesDone(rule, ts, c)
    ensures LeavesDone(rule, ts, t)
  {
    forall d | d in ts && Under(ts, d, t) && IsLeaf(ts, d)
      ensures Done(rule, d.status)
    {
      var c := BelowAChild(ts, d, t);
    }
  }

  /** Promotion stays inside the tasks whose leaves are done. */
  lemma LeavesDoneIsClosed(rule: Rule, ts: seq<Task>, kept: set<TaskId>)
    requires UniqueIds(ts) && LeafReopenFree(rule, ts)
    requires forall id :: id in kept <==> Known(ts, id) && LeavesDoneAt(rule, ts, id)
    ensures ClosedSet(rule, ts, kept)
  {
    forall t | t in ts && (Done(rule, t.status) || ChildrenWithin(ts, t.id, kept))
      ensures t.id in kept
    {
      FindUnique(ts, t);
      if !Done(rule, t.status) {
        assert forall c :: c in ts && IsChild(c, t.id) ==> LeavesDoneAt(rule, ts, c.id);
        LeavesDoneUpwards(rule, ts, t);
      }
      forall a | a in ts && a.id == t.id
        ensures LeavesDone(rule, ts, a)
      {
        FindUnique(ts, a);
      }
    }
  }

  /** Aggregation gives a task with an undone leaf no completion it did not have. */
  lemma NewlyDoneHasDoneLeaves(rule: Rule, ts: seq<Task>, us: seq<Task>, i: nat)
    requires UniqueIds(ts) && Aggregated(rule, ts, us) && LeafReopenFree(rule, ts) && i < |us| && Done(rule, us[i].status)
    ensures LeavesDone(rule, ts, ts[i])
  {
    var kept := set t | t in ts && LeavesDoneAt(rule, ts, t.id) :: t.id;
    LeavesDoneIsClosed(rule, ts, kept);
    assert DoneWithin(rule, us, kept) && us[i] in us && ts[i] in ts;
  }

  /**
   Done tasks have done leaves after aggregation exactly if they had before: aggregation neither spoils
   nor repairs it, so what a reopened leaf leaves behind stays.
   */
  lemma LeafReopenFreeIsKept(rule: Rule, ts: seq<Task>, us: seq<Task>)
    requires UniqueIds(ts) && Aggregated(rule, ts, us)
    ensures LeafReopenFree(rule, us) <==> LeafReopenFree(rule, ts)
  {
    AggregationLeavesKept(rule, ts, us);
    if LeafReopenFree(rule, ts) {
      forall u | u in us && Done(rule, u.status)
        ensures LeavesDone(rule, us, u)
      {
        var i :| 0 <= i < |us| && us[i] == u;
        NewlyDoneHasDoneLeaves(rule, ts, us, i);
        LeavesDoneTwin(rule, us, ts, i);
      }
    }
    if LeafReopenFree(rule, us) {
      forall t | t in ts && Done(rule, t.status)
        ensures LeavesDone(rule, ts, t)
      {
        var i :| 0 <= i < |ts| && ts[i] == t;
        assert us[i] in us;
        LeavesDoneTwin(rule, ts, us, i);
      }
    }
  }

  /** With parents that follow, a task whose leaves are done is done after aggregation. */
  lemma {:induction false} DoneLeavesDoneTask(rule: Rule, ts: seq<Task>, us: seq<Task>, r: Rank, i: nat)
    requires UniqueIds(ts) && Ranked(ts, r) && (forall t :: t in ts ==> DepthOk(ts, t))
    requires Aggregated(rule, ts, us) && ParentsFollow(rule, ts) && i < |ts| && LeavesDone(rule, ts, ts[i])
    ensures Done(rule, us[i].status)
    decreases r[ts[i].id]
  {
    var a := ts[i];
    AggregationLeavesKept(rule, ts, us);
    if IsLeaf(ts, a) {
      assert Under(ts, a, a);
    } else {
      SameKnown(ts, us);
      forall c | c in us && IsChild(c, a.id)
        ensures Done(rule, c.status)
      {
        var j :| 0 <= j < |us| && us[j] == c;
        assert ts[j] in ts && DepthOk(ts, ts[j]);
        forall d | d in ts && Under(ts, d, ts[j]) && IsLeaf(ts, d)
          ensures Done(rule, d.status)
        {
          UnderChild(ts, d, ts[j], a);
        }
        DoneLeavesDoneTask(rule, ts, us, r, j);
      }
      assert ChildrenDone(rule, us, a.id) && us[i] in us;
    }
  }

  ghost predicate DoneAsLeaves(rule: Rule, ts: seq<Task>, us: seq<Task>) {
    |us| == |ts| && forall i :: 0 <= i < |us| ==> (Done(rule, us[i].status) <==> LeavesDone(rule, ts, ts[i]))
  }

  lemma DoneAsLeavesMeans(rule: Rule, ts: seq<Task>, us: seq<Task>)
    requires UniqueIds(ts) && Aggregated(rule, ts, us) && DoneAsLeaves(rule, ts, us)
    ensures LeafReopenFree(rule, ts) && ParentsFollow(rule, ts)
  {
    forall t | t in ts
      ensures Done(rule, t.status) ==> LeavesDone(rule, ts, t)
      ensures LeavesDone(rule, ts, t) ==> Done(rule, t.status) || Eligible(rule, t)
    {
      var i :| 0 <= i < |ts| && ts[i] == t;
      assert Done(rule, t.status) ==> us[i] == t;
    }
  }

  /**
   After aggregation the done tasks are exactly those whose leaves are done, if and only if before it done
   tasks had done leaves and no parent with done leaves was kept back.
   */
  lemma DoneIffLeavesDone(rule: Rule, project: string, ts: seq<Task>, us: seq<Task>)
    requires Structured(project, ts) && Aggregated(rule, ts, us)
    ensures DoneAsLeaves(rule, ts, us) <==> LeafReopenFree(rule, ts) && ParentsFollow(rule, ts)
  {
    var r :| StructuredBy(project, ts, r);
    if DoneAsLeaves(rule, ts, us) { DoneAsLeavesMeans(rule, ts, us); }
    if LeafReopenFree(rule, ts) && ParentsFollow(rule, ts) {
      forall i | 0 <= i < |us|
        ensures Done(rule, us[i].status) <==> LeavesDone(rule, ts, ts[i])
      {
        if Done(rule, us[i].status) { NewlyDoneHasDoneLeaves(rule, ts, us, i); }
        if LeavesDone(rule, ts, ts[i]) { DoneLeavesDoneTask(rule, ts, us, r, i); }
      }
    }
  }

  // ---- Reopening ----

  /** No other done task lies above task `k`. */
  ghost predicate NoneDoneAbove(rule: Rule, ts: seq<Task>, k: nat)
    requires k < |ts|
  {
    forall a {:trigger Under(ts, ts[k], a)} :: a in ts && a != ts[k] && Under(ts, ts[k], a) ==> !Done(rule, a.status)
  }

  lemma ReopenedSpoils(rule: Rule, ts: seq<Task>, us: seq<Task>, k: nat, j: nat)
    requires SameShapes(ts, us) && UniqueIds(ts) && k < |ts| && j < |ts| && Under(ts, ts[k], ts[j])
    requires IsLeaf(ts, ts[k]) && !Done(rule, us[k].status) && LeafReopenFree(rule, us)
    ensures !Done(rule, us[j].status)
  {
    SameKnown(ts, us);
    UnderTwin(ts, us, k, j);
    assert us[j] in us && us[k] in us && IsLeaf(us, us[k]);
  }

  lemma ReopenedSpares(rule: Rule, ts: seq<Task>, k: nat, t: Task, i: nat, j: nat)
    requires UniqueIds(ts) && LeafReopenFree(rule, ts) && k < |ts| && SameShape(ts[k], t) && !Done(rule, t.status)
    requires NoneDoneAbove(rule, ts, k) && i < |ts| && j < |ts|
    requires var us := ts[k := t]; Done(rule, us[j].status) && Under(us, us[i], us[j]) && IsLeaf(us, us[i])
    ensures Done(rule, ts[k := t][i].status)
  {
    var us := ts[k := t];
    assert SameShapes(us, ts) && UniqueIds(us);
    SameKnown(us, ts);
    UnderTwin(us, ts, i, j);
    assert j != k && ts[j] in ts && ts[i] in ts && IsLeaf(ts, ts[i]);
  }

  /** A leaf that loses its completion leaves done tasks with done leaves exactly if no task above it was done. */
  lemma LeafReopenBreaks(rule: Rule, ts: seq<Task>, k: nat, t: Task)
    requires UniqueIds(ts) && LeafReopenFree(rule, ts) && k < |ts| && IsLeaf(ts, ts[k])
    requires SameShape(ts[k], t) && !Done(rule, t.status)
    ensures LeafReopenFree(rule, ts[k := t]) <==> NoneDoneAbove(rule, ts, k)
  {
    var us := ts[k := t];
    assert SameShapes(ts, us);
    hide Under, IsLeaf;
    if LeafReopenFree(rule, us) {
      forall a | a in ts && a != ts[k] && Under(ts, ts[k], a)
        ensures !Done(rule, a.status)
      {
        var j :| 0 <= j < |ts| && ts[j] == a;
        ReopenedSpoils(rule, ts, us, k, j);
      }
    }
    if NoneDoneAbove(rule, ts, k) {
      forall u, d | u in us && Done(rule, u.status) && d in us && Under(us, d, u) && IsLeaf(us, d)
        ensures Done(rule, d.status)
      {
        var j :| 0 <= j < |us| && us[j] == u;
        var i :| 0 <= i < |us| && us[i] == d;
        ReopenedSpares(rule, ts, k, t, i, j);
      }
    }
  }
}
