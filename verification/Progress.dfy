/**
 When the selector finds no reachable task. Behind every such failure stands a chain of waiting tasks
 that ends at a failed task, or, if dependents wait for verification, at one not yet verified.
 */
module Progress {
  import opened Common
  import opened Schema
  import opened TaskGraph
  import opened Invariant
  import opened Aggregation
  import opened Selector
  import opened Steps

  predicate WaitsOn(t: Task, d: Task) {
    d.id in t.dependencies || IsChild(d, t.id)
  }

  ghost predicate WaitChain(ts: seq<Task>, w: seq<Task>) {
    && w != []
    && (forall i :: 0 <= i < |w| ==> w[i] in ts)
    && (forall i :: 0 <= i < |w| - 1 ==> WaitsOn(w[i], w[i + 1]) && !Complete(w[i].status))
  }

  /** A task that no release and no aggregation can move. */
  predicate Culprit(policy: Policy, t: Task) {
    t.status == Blocked || t.status == Failed || (policy == VerifiedPolicy && t.status == CandidateComplete)
  }

  /** Nothing runs, nothing is ready, nothing can be released and nothing can be aggregated. */
  ghost predicate Exhaustive(policy: Policy, ts: seq<Task>) {
    && (forall t :: t in ts ==> t.status != Ready && t.status != InProgress)
    && (forall t :: t in ts ==> !Releasable(policy, ts, t))
    && Stable(CandidateRule, ts)
    && Phased(ts)
  }

  lemma UnmetDependency(policy: Policy, ts: seq<Task>, r: Rank, t: Task) returns (d: Task)
    requires Ranked(ts, r) && t in ts && t.status == Pending && !Releasable(policy, ts, t)
    ensures d in ts && d.id in t.dependencies && r[d.id] < r[t.id] && !Satisfying(policy, d.status)
  {
    var id :| id in t.dependencies && !DependencyMet(policy, ts, id);
    assert Known(ts, id);
    d :| d in ts && d.id == id;
  }

  lemma UnfinishedChild(ts: seq<Task>, r: Rank, t: Task) returns (d: Task)
    requires Ranked(ts, r) && Stable(CandidateRule, ts) && t in ts && t.status == Decomposed && HasChild(ts, t.id)
    ensures d in ts && IsChild(d, t.id) && r[d.id] < r[t.id] && !Complete(d.status)
  {
    assert !ChildrenDone(CandidateRule, ts, t.id);
    d :| d in ts && IsChild(d, t.id) && !Complete(d.status);
  }

  lemma NextInChain(policy: Policy, ts: seq<Task>, r: Rank, t: Task) returns (d: Task)
    requires Exhaustive(policy, ts) && Ranked(ts, r) && t in ts && (t.status == Pending || t.status == Decomposed)
    ensures d in ts && WaitsOn(t, d) && r[d.id] < r[t.id]
    ensures Culprit(policy, d) || d.status == Pending || d.status == Decomposed
  {
    assert !Releasable(policy, ts, t);
    assert Fits(t, HasChild(ts, t.id));
    if t.status == Pending {
      d := UnmetDependency(policy, ts, r, t);
    } else {
      d := UnfinishedChild(ts, r, t);
    }
    assert Fits(d, HasChild(ts, d.id));
    assert d.status != Ready && d.status != InProgress;
  }

  /** Following what a stuck task waits for always leads to a culprit. */
  lemma {:induction false} StuckTaskHasCulprit(policy: Policy, ts: seq<Task>, r: Rank, t: Task) returns (w: seq<Task>)
    requires Exhaustive(policy, ts) && Ranked(ts, r) && t in ts && (t.status == Pending || t.status == Decomposed)
    ensures WaitChain(ts, w) && w[0] == t && Culprit(policy, w[|w| - 1])
    decreases r[t.id]
  {
    var d := NextInChain(policy, ts, r, t);
    if Culprit(policy, d) {
      w := [t, d];
    } else {
      var rest := StuckTaskHasCulprit(policy, ts, r, d);
      w := [t] + rest;
    }
  }

  // ---- Selection after the two aggregations ----

  lemma CompleteChildren(ts: seq<Task>, id: TaskId, done: set<TaskId>)
    requires UniqueIds(ts) && ChildrenWithin(ts, id, done)
    requires forall x :: x in done ==> exists t :: t in ts && Complete(t.status) && t.id == x
    ensures ChildrenDone(CandidateRule, ts, id)
  {
    forall c | c in ts && IsChild(c, id)
      ensures Complete(c.status)
    {
      var d :| d in ts && Complete(d.status) && d.id == c.id;
      FindUnique(ts, c);
      FindUnique(ts, d);
    }
  }

  /** On an aggregated list the second aggregation completes nothing, it only verifies. */
  lemma VerifiedKeepsCompletion(ts: seq<Task>, us: seq<Task>)
    requires UniqueIds(ts) && Stable(CandidateRule, ts) && Aggregated(VerifiedRule, ts, us)
    ensures SameShapes(ts, us) && forall i :: 0 <= i < |ts| ==> (Complete(us[i].status) <==> Complete(ts[i].status))
  {
    PromotesKeepsShapes(VerifiedRule, ts, us);
    SameKnown(ts, us);
    var done := set t | t in ts && Complete(t.status) :: t.id;
    forall t | t in ts && Eligible(VerifiedRule, t) && ChildrenWithin(ts, t.id, done)
      ensures t.id in done
    {
      CompleteChildren(ts, t.id, done);
      assert !Eligible(CandidateRule, t);
    }
    assert ClosedSet(VerifiedRule, ts, done);
    forall i | 0 <= i < |ts|
      ensures Complete(us[i].status) <==> Complete(ts[i].status)
    {
      if us[i] != ts[i] {
        assert us[i] in us && us[i].id in done;
        var d :| d in ts && Complete(d.status) && d.id == us[i].id;
        FindUnique(ts, d);
        FindUnique(ts, ts[i]);
      }
    }
  }

  lemma VerifiedAggregationKeepsStable(ts: seq<Task>, us: seq<Task>)
    requires UniqueIds(ts) && Stable(CandidateRule, ts) && Aggregated(VerifiedRule, ts, us)
    ensures Stable(CandidateRule, us)
  {
    VerifiedKeepsCompletion(ts, us);
    SameCompletionSameStable(ts, us);
  }

  lemma SameCompletionSameStable(ts: seq<Task>, us: seq<Task>)
    requires SameShapes(ts, us) && Stable(CandidateRule, ts)
    requires forall i :: 0 <= i < |ts| ==> (Complete(us[i].status) <==> Complete(ts[i].status))
    requires forall i :: 0 <= i < |ts| ==> us[i].status == Decomposed ==> ts[i].status == Decomposed
    ensures Stable(CandidateRule, us)
  {
    forall u | u in us && Eligible(CandidateRule, u)
      ensures !ChildrenDone(CandidateRule, us, u.id)
    {
      var i :| 0 <= i < |us| && us[i] == u;
      assert ts[i] in ts && !ChildrenDone(CandidateRule, ts, ts[i].id);
      hide Stable;
      SameCompletionSameChildren(ts, us, u.id);
    }
  }

  lemma SameCompletionSameChildren(ts: seq<Task>, us: seq<Task>, id: TaskId)
    requires SameShapes(ts, us) && !ChildrenDone(CandidateRule, ts, id)
    requires forall i :: 0 <= i < |ts| ==> (Complete(us[i].status) <==> Complete(ts[i].status))
    ensures !ChildrenDone(CandidateRule, us, id)
  {
    SameKnown(ts, us);
    if HasChild(ts, id) {
      var c :| c in ts && IsChild(c, id) && !Complete(c.status);
      var j :| 0 <= j < |ts| && ts[j] == c;
      assert us[j] in us && IsChild(us[j], id);
    }
  }

  lemma ReleaseIsExhaustive(policy: Policy, ts: seq<Task>, us: seq<Task>)
    requires Stable(CandidateRule, ts) && Phased(ts) && Released(policy, ts, us) && Phased(us)
    requires forall t :: t in ts ==> t.status != InProgress
    requires !AnyWith(us, Ready)
    ensures Exhaustive(policy, us) && us == ts
  {
    forall i | 0 <= i < |ts|
      ensures us[i] == ts[i]
    {
      assert us[i] in us;
    }
    assert us == ts;
    forall t | t in ts
      ensures !Releasable(policy, ts, t)
    {
      var i :| 0 <= i < |ts| && ts[i] == t;
    }
  }

  // ---- What a released task may rely on ----

  /** Every leaf in the subtree of the tasks with this id is complete. */
  ghost predicate LeavesCompleteUnder(ts: seq<Task>, id: TaskId) {
    forall j, l {:trigger Under(ts, ts[l], ts[j])} ::
      0 <= j < |ts| && 0 <= l < |ts| && ts[j].id == id && Under(ts, ts[l], ts[j]) && IsLeaf(ts, ts[l]) ==>
        ts[l].status == CandidateComplete || ts[l].status == Verified
  }

  lemma LeavesUnderUnique(ts: seq<Task>, j: nat)
    requires UniqueIds(ts) && j < |ts|
    ensures LeavesCompleteUnder(ts, ts[j].id) <==> LeavesDone(CandidateRule, ts, ts[j])
  {
    if LeavesDone(CandidateRule, ts, ts[j]) {
      forall i, l | 0 <= i < |ts| && 0 <= l < |ts| && ts[i].id == ts[j].id && Under(ts, ts[l], ts[i]) && IsLeaf(ts, ts[l])
        ensures ts[l].status == CandidateComplete || ts[l].status == Verified
      {
        assert ts[l] in ts && i == j;
      }
    }
    if LeavesCompleteUnder(ts, ts[j].id) {
      forall d | d in ts && Under(ts, d, ts[j]) && IsLeaf(ts, d)
        ensures Done(CandidateRule, d.status)
      {
        var l :| 0 <= l < |ts| && ts[l] == d;
      }
    }
  }

  lemma CompleteAsLeavesUnder(ps: seq<Task>, ts: seq<Task>)
    requires UniqueIds(ps) && SameShapes(ps, ts) && DoneAsLeaves(CandidateRule, ps, ts)
    ensures forall j :: 0 <= j < |ts| ==> (Complete(ts[j].status) <==> LeavesCompleteUnder(ps, ts[j].id))
  {
    hide LeavesDone, LeavesCompleteUnder;
    forall j | 0 <= j < |ts|
      ensures Complete(ts[j].status) <==> LeavesCompleteUnder(ps, ts[j].id)
    {
      LeavesUnderUnique(ps, j);
    }
  }

  lemma AggregatedFacts(rule: Rule, ts: seq<Task>, us: seq<Task>)
    requires Aggregated(rule, ts, us)
    ensures SameShapes(ts, us) && |us| == |ts| && Stable(rule, us)
  {
    PromotesKeepsShapes(rule, ts, us);
  }

  /** After the aggregations a task is complete exactly if the leaves below it were. */
  lemma CompleteAfterAggregations(p: Snapshot, cap: nat, ts: seq<Task>, us: seq<Task>)
    requires Sound(p, cap) && LeafReopenFree(CandidateRule, p.tasks)
    requires Aggregated(CandidateRule, p.tasks, ts) && Aggregated(VerifiedRule, ts, us)
    ensures SameShapes(p.tasks, us)
    ensures forall j :: 0 <= j < |us| ==> (Complete(us[j].status) <==> LeavesCompleteUnder(p.tasks, us[j].id))
  {
    hide *;
    AggregatedFacts(CandidateRule, p.tasks, ts);
    SoundFacts(p, cap);
    CompleteIffLeavesComplete(p, ts, cap);
    CompleteAsLeavesUnder(p.tasks, ts);
    AggregationKeepsSound(CandidateRule, p, p.(tasks := ts), cap);
    SoundFacts(p.(tasks := ts), cap);
    VerifiedKeepsCompletion(ts, us);
    ShapesCompose(p.tasks, ts, us);
  }

  lemma ShapesCompose(ts: seq<Task>, us: seq<Task>, vs: seq<Task>)
    requires SameShapes(ts, us) && SameShapes(us, vs)
    ensures SameShapes(ts, vs) && |us| == |vs| && forall i :: 0 <= i < |us| ==> us[i].id == vs[i].id
  {
  }

  lemma DoneDependenciesAreLeaves(policy: Policy, ps: seq<Task>, us: seq<Task>, t: Task)
    requires SameShapes(ps, us) && forall d :: d in t.dependencies ==> Known(ps, d)
    requires UniqueIds(ps) && forall j :: 0 <= j < |us| ==> (Complete(us[j].status) <==> LeavesCompleteUnder(ps, us[j].id))
    ensures DependenciesDone(policy, us, t) ==> forall d :: d in t.dependencies ==> LeavesCompleteUnder(ps, d)
    ensures DependenciesDone(CandidateCompletePolicy, us, t) <==> forall d :: d in t.dependencies ==> LeavesCompleteUnder(ps, d)
  {
    hide LeavesCompleteUnder;
    forall d | d in t.dependencies
      ensures exists j :: 0 <= j < |us| && us[j].id == d
    {
      var x :| x in ps && x.id == d;
      var j :| 0 <= j < |ps| && ps[j] == x;
      assert us[j].id == d;
    }
  }

  lemma DependenciesKnown(p: Snapshot, cap: nat, t: Task)
    requires Sound(p, cap) && t in p.tasks
    ensures forall d :: d in t.dependencies ==> Known(p.tasks, d)
  {
    SoundFacts(p, cap);
    var r :| StructuredBy(p.projectId, p.tasks, r);
  }

  lemma PendingStaysPending(rule: Rule, ts: seq<Task>, us: seq<Task>, i: nat)
    requires Promotes(rule, ts, us) && i < |ts|
    ensures i < |us| && (ts[i].status == Pending <==> us[i].status == Pending) && (ts[i].status == Pending ==> us[i] == ts[i])
  {
  }

  /**
   A pending task is released by the selector, called after the two aggregations, only if every leaf below each of its
   dependencies is complete; and exactly then, if complete dependencies are enough. Before, done tasks have done leaves.
   */
  lemma ReleasedIffLeavesComplete(policy: Policy, p: Snapshot, cap: nat, ts: seq<Task>, us: seq<Task>, vs: seq<Task>, i: nat)
    requires Sound(p, cap) && LeafReopenFree(CandidateRule, p.tasks)
    requires Aggregated(CandidateRule, p.tasks, ts) && Aggregated(VerifiedRule, ts, us) && Released(policy, us, vs)
    requires i < |p.tasks| && p.tasks[i].status == Pending
    ensures i < |vs|
    ensures vs[i].status == Ready ==> forall d :: d in p.tasks[i].dependencies ==> LeavesCompleteUnder(p.tasks, d)
    ensures policy == CandidateCompletePolicy ==>
              (vs[i].status == Ready <==> forall d :: d in p.tasks[i].dependencies ==> LeavesCompleteUnder(p.tasks, d))
  {
    PendingStaysPending(CandidateRule, p.tasks, ts, i);
    PendingStaysPending(VerifiedRule, ts, us, i);
    ReleaseMeans(policy, us, vs);
    DependenciesKnown(p, cap, p.tasks[i]);
    SoundFacts(p, cap);
    hide Sound, Structured, Aggregated, LeafReopenFree, LeavesCompleteUnder, DependenciesDone, Released, Phased, OneActive, Accounted;
    CompleteAfterAggregations(p, cap, ts, us);
    DoneDependenciesAreLeaves(policy, p.tasks, us, p.tasks[i]);
  }

  // ---- Failures of the selector ----

  /** A pending task whose chain of waiting tasks ends at a failed one, or at one that is complete but unverified. */
  ghost predicate CulpritChain(policy: Policy, ts: seq<Task>, w: seq<Task>) {
    && WaitChain(ts, w) && w[0].status == Pending
    && (w[|w| - 1].status == Failed || (policy == VerifiedPolicy && w[|w| - 1].status == CandidateComplete))
  }

  ghost predicate StuckBehindFailure(policy: Policy, ts: seq<Task>) {
    exists w: seq<Task> :: CulpritChain(policy, ts, w)
  }

  /**
   The selector, called after the two aggregations, reports no reachable task exactly if nothing is ready or blocked and
   some pending task waits, through dependencies and children, for a failed task or for one that is complete but
   unverified under the verified policy.
   */
  lemma NoReachableTaskHasCulprit(policy: Policy, p: Snapshot, cap: nat, ts: seq<Task>, us: seq<Task>, vs: seq<Task>)
    requires Sound(p, cap) && (forall t :: t in us ==> t.status != InProgress)
    requires Aggregated(CandidateRule, p.tasks, ts) && Aggregated(VerifiedRule, ts, us) && Released(policy, us, vs)
    requires !AnyWith(vs, Ready)
    ensures Exhausted(vs, p.status).0 == NoReachableTask <==> !AnyWith(vs, Blocked) && StuckBehindFailure(policy, vs)
  {
    hide Exhausted, StuckBehindFailure;
    SoundFacts(p, cap);
    var q := p.(tasks := ts);
    AggregationKeepsSound(CandidateRule, p, q, cap);
    SoundFacts(q, cap);
    var q' := q.(tasks := us);
    AggregationKeepsSound(VerifiedRule, q, q', cap);
    VerifiedAggregationKeepsStable(ts, us);
    ExhaustedHasCulprit(policy, q', cap, vs);
  }

  lemma ExhaustedHasCulprit(policy: Policy, p: Snapshot, cap: nat, vs: seq<Task>)
    requires Sound(p, cap) && Stable(CandidateRule, p.tasks) && (forall t :: t in p.tasks ==> t.status != InProgress)
    requires Released(policy, p.tasks, vs) && !AnyWith(vs, Ready)
    ensures Exhausted(vs, p.status).0 == NoReachableTask <==> !AnyWith(vs, Blocked) && StuckBehindFailure(policy, vs)
  {
    hide Exhausted, StuckBehindFailure;
    SoundFacts(p, cap);
    ReleaseKeepsPhase(policy, p.tasks, vs, p.active, None);
    ReleaseIsExhaustive(policy, p.tasks, vs);
    if Exhausted(vs, p.status).0 == NoReachableTask { ExhaustiveHasCulprit(policy, p.projectId, vs, p.status); }
    if !AnyWith(vs, Blocked) && StuckBehindFailure(policy, vs) { StuckIsUnreachable(policy, vs, p.status); }
  }

  lemma ExhaustiveHasCulprit(policy: Policy, project: string, vs: seq<Task>, status: ProjectStatus)
    requires Exhaustive(policy, vs) && Structured(project, vs) && Exhausted(vs, status).0 == NoReachableTask
    ensures !AnyWith(vs, Blocked) && StuckBehindFailure(policy, vs)
  {
    var r :| StructuredBy(project, vs, r);
    assert !AnyWith(vs, Blocked) && !AnyWith(vs, Ready) && !AnyWith(vs, InProgress) && AnyWith(vs, Pending);
    var t :| t in vs && t.status == Pending;
    var w := StuckTaskHasCulprit(policy, vs, r, t);
    assert w[|w| - 1] in vs;
    assert CulpritChain(policy, vs, w);
  }

  /** A pending task is an unfinished leaf, so with nothing blocked there is no other answer. */
  lemma PendingIsUnreachable(vs: seq<Task>, status: ProjectStatus, t: Task)
    requires Phased(vs) && !AnyWith(vs, Blocked) && t in vs && t.status == Pending
    ensures Exhausted(vs, status).0 == NoReachableTask
  {
    assert Fits(t, HasChild(vs, t.id));
    assert IsLeaf(vs, t);
  }

  lemma StuckIsUnreachable(policy: Policy, vs: seq<Task>, status: ProjectStatus)
    requires Phased(vs) && !AnyWith(vs, Blocked) && StuckBehindFailure(policy, vs)
    ensures Exhausted(vs, status).0 == NoReachableTask
  {
    var w :| CulpritChain(policy, vs, w);
    PendingIsUnreachable(vs, status, w[0]);
  }

  lemma FailedBefore(policy: Policy, ps: seq<Task>, ts: seq<Task>, us: seq<Task>, vs: seq<Task>, t: Task)
    requires Aggregated(CandidateRule, ps, ts) && Aggregated(VerifiedRule, ts, us) && Released(policy, us, vs)
    requires t in vs && t.status == Failed
    ensures AnyWith(ps, Failed)
  {
    var i :| 0 <= i < |vs| && vs[i] == t;
    assert us[i].status == Failed && ts[i].status == Failed;
    assert ps[i] in ps && ps[i].status == Failed;
  }

  /** No deadlock: under the candidate-complete policy, with no failed task, the selector always finds its way. */
  lemma NoDeadlock(p: Snapshot, cap: nat, ts: seq<Task>, us: seq<Task>, vs: seq<Task>)
    requires Sound(p, cap) && (forall t :: t in us ==> t.status != InProgress)
    requires Aggregated(CandidateRule, p.tasks, ts) && Aggregated(VerifiedRule, ts, us)
    requires Released(CandidateCompletePolicy, us, vs)
    requires !AnyWith(p.tasks, Failed)
    ensures AnyWith(vs, Ready) || Exhausted(vs, p.status).0 == Nothing
  {
    hide Sound, Aggregated, Released;
    if !AnyWith(vs, Ready) && Exhausted(vs, p.status).0 != Nothing {
      NoReachableTaskHasCulprit(CandidateCompletePolicy, p, cap, ts, us, vs);
      var w :| CulpritChain(CandidateCompletePolicy, vs, w);
      FailedBefore(CandidateCompletePolicy, p.tasks, ts, us, vs, w[|w| - 1]);
      assert false;
    }
  }

  /**
   Under the verified policy a dependent of a complete but unverified task is not released; with nothing else ready
   and nothing blocked, the selector fails.
   */
  lemma VerifiedPolicyDeadlocks(us: seq<Task>, vs: seq<Task>, status: ProjectStatus, t: Task, d: Task)
    requires UniqueIds(us) && Phased(vs) && Released(VerifiedPolicy, us, vs)
    requires t in us && t.status == Pending && d in us && d.status == CandidateComplete && d.id in t.dependencies
    ensures t in vs
    ensures AnyWith(vs, Ready) || AnyWith(vs, Blocked) || Exhausted(vs, status).0 == NoReachableTask
  {
    var i :| 0 <= i < |us| && us[i] == t;
    FindUnique(us, d);
    forall x | x in us && x.id == d.id
      ensures x == d
    {
      FindUnique(us, x);
    }
    assert !DependencyMet(VerifiedPolicy, us, d.id);
    assert vs[i] == t;
    if !AnyWith(vs, Blocked) { PendingIsUnreachable(vs, status, t); }
  }

  const UNVERIFIED := NewTask("x:a", "a", "first", [], None, 0, 0).(status := CandidateComplete)
  const DEPENDENT := NewTask("x:b", "b", "second", ["x:a"], None, 0, 0)

  /** Two tasks of which the second is such a dependent. */
  lemma VerifiedPolicyCanDeadlock()
    ensures Released(VerifiedPolicy, [UNVERIFIED, DEPENDENT], [UNVERIFIED, DEPENDENT])
    ensures Exhausted([UNVERIFIED, DEPENDENT], Active).0 == NoReachableTask
  {
    var ts := [UNVERIFIED, DEPENDENT];
    assert UNVERIFIED == ts[0] && DEPENDENT == ts[1];
    assert forall t :: t in ts ==> t == UNVERIFIED || t == DEPENDENT;
    assert "x:a" in DEPENDENT.dependencies && !DependencyMet(VerifiedPolicy, ts, "x:a");
    assert !HasChild(ts, DEPENDENT.id);
    assert IsLeaf(ts, DEPENDENT) && DEPENDENT in ts;
  }
}
