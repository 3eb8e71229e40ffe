/** How a run gets its work done: what waits, what each step leaves of it, and that nothing is lost on the way. */
module Completion {
  import opened Common
  import opened Schema
  import opened TaskGraph
  import opened Invariant
  import opened Aggregation
  import opened Selector
  import opened Steps
  import opened Progress

  predicate Waiting(s: TaskStatus) {
    s == Pending || s == Ready || s == InProgress
  }

  /** The places of the tasks still to be worked on. */
  ghost function Waits(ts: seq<Task>): set<nat> {
    set i: nat | i < |ts| && Waiting(ts[i].status)
  }

  /** The places of the leaves that are not complete. */
  ghost function Unfinished(ts: seq<Task>): set<nat> {
    set i: nat | i < |ts| && IsLeaf(ts, ts[i]) && !Complete(ts[i].status)
  }

  /** Nothing can keep a task from being worked on: none has failed or is blocked, and each may have another session. */
  ghost predicate Unhindered(ts: seq<Task>, cap: nat) {
    && UniqueKeys(ts)
    && forall i :: 0 <= i < |ts| ==>
         ts[i].status != Failed && ts[i].status != Blocked && (Waiting(ts[i].status) ==> |ts[i].sessions| < cap)
  }

  /** With nothing failed or blocked, what is unfinished waits. */
  lemma UnfinishedWaits(ts: seq<Task>, cap: nat)
    requires Phased(ts) && Unhindered(ts, cap)
    ensures Unfinished(ts) == Waits(ts)
  {
    forall i: nat | i < |ts|
      ensures i in Unfinished(ts) <==> i in Waits(ts)
    {
      assert ts[i] in ts && Fits(ts[i], HasChild(ts, ts[i].id));
    }
  }

  /**
   `us` is `ts` further on: what waits has waited before and had no session since, what waited and does no longer is
   complete, and all other leaves are as they were.
   */
  ghost predicate Served(ts: seq<Task>, us: seq<Task>) {
    SameShapes(ts, us) && forall i :: 0 <= i < |ts| ==>
      && (us[i].status == Failed || us[i].status == Blocked ==> ts[i].status == us[i].status)
      && (Waiting(us[i].status) ==> Waiting(ts[i].status) && us[i].sessions == ts[i].sessions)
      && (Waiting(ts[i].status) && !Waiting(us[i].status) ==> us[i].status == CandidateComplete)
      && (IsLeaf(ts, ts[i]) && !Waiting(ts[i].status) ==> us[i].status == ts[i].status)
  }

  lemma ServedItself(ts: seq<Task>)
    ensures Served(ts, ts)
  {
  }

  lemma ServedFurther(ts: seq<Task>, us: seq<Task>, vs: seq<Task>)
    requires Phased(ts) && Served(ts, us) && Served(us, vs)
    ensures Served(ts, vs)
  {
    SameKnown(ts, us);
    forall i | 0 <= i < |ts|
      ensures Waiting(ts[i].status) ==> IsLeaf(ts, ts[i])
      ensures IsLeaf(us, us[i]) <==> IsLeaf(ts, ts[i])
    {
      assert ts[i] in ts && Fits(ts[i], HasChild(ts, ts[i].id));
    }
    hide Phased, IsLeaf;
  }

  lemma ServedStaysUnhindered(ts: seq<Task>, us: seq<Task>, cap: nat)
    requires Served(ts, us) && Unhindered(ts, cap)
    ensures Unhindered(us, cap)
  {
  }

  lemma AggregationServes(rule: Rule, ts: seq<Task>, us: seq<Task>)
    requires UniqueIds(ts) && Aggregated(rule, ts, us)
    ensures Served(ts, us) && Waits(us) == Waits(ts)
  {
    AggregationLeavesKept(rule, ts, us);
    hide Aggregated, IsLeaf;
    assert Promotes(rule, ts, us) by { PromotesOnly(rule, ts, us); }
  }

  lemma PromotesOnly(rule: Rule, ts: seq<Task>, us: seq<Task>)
    requires Aggregated(rule, ts, us)
    ensures Promotes(rule, ts, us)
  {
  }

  lemma ReleaseServes(policy: Policy, ts: seq<Task>, us: seq<Task>)
    requires ReadyWhenDone(policy, ts, us)
    ensures Served(ts, us) && Waits(us) == Waits(ts)
  {
    hide DependenciesDone;
  }

  /** A task that is completed in its session no longer waits, and nothing else changes. */
  lemma SessionServes(ts: seq<Task>, us: seq<Task>, k: nat)
    requires CompletedAt(ts, us, k) && Waiting(ts[k].status)
    ensures Served(ts, us) && k in Waits(ts) && Waits(us) == Waits(ts) - {k}
    ensures |Waits(us)| == |Waits(ts)| - 1
  {
  }

  /** Task `k` was completed, and nothing else happened. */
  ghost predicate CompletedAt(ts: seq<Task>, us: seq<Task>, k: nat) {
    && k < |ts| == |us| && us == ts[k := us[k]]
    && SameShape(ts[k], us[k]) && us[k].status == CandidateComplete
  }

  /** Every leaf is complete: it was before and is as it was, or it is a candidate now. */
  ghost predicate AllServed(ts: seq<Task>, us: seq<Task>) {
    SameShapes(ts, us) && forall i :: 0 <= i < |us| && IsLeaf(us, us[i]) ==>
      us[i].status == if ts[i].status == CandidateComplete || ts[i].status == Verified then ts[i].status else CandidateComplete
  }

  lemma ServedToTheEnd(ts: seq<Task>, us: seq<Task>, cap: nat)
    requires Phased(ts) && Unhindered(ts, cap) && Served(ts, us) && Waits(us) == {}
    ensures AllServed(ts, us)
  {
    SameKnown(ts, us);
    forall i: nat | i < |us| && IsLeaf(us, us[i])
      ensures us[i].status == if ts[i].status == CandidateComplete || ts[i].status == Verified then ts[i].status else CandidateComplete
    {
      assert ts[i] in ts && Fits(ts[i], HasChild(ts, ts[i].id)) && IsLeaf(ts, ts[i]);
      assert i !in Waits(us);
    }
  }

  /** In a list of new tasks all wait. */
  lemma NewTasksWait(ts: seq<Task>, cap: nat)
    requires UniqueKeys(ts) && 1 <= cap && forall i :: 0 <= i < |ts| ==> ts[i].status == Pending && ts[i].sessions == []
    ensures Unhindered(ts, cap) && |Waits(ts)| == |ts|
  {
    AllWait(ts);
  }

  lemma {:induction false} AllWait(ts: seq<Task>)
    requires forall i :: 0 <= i < |ts| ==> ts[i].status == Pending
    ensures |Waits(ts)| == |ts|
  {
    if ts == [] {
      assert Waits(ts) == {};
    } else {
      var n := |ts| - 1;
      AllWait(ts[..n]);
      assert Waits(ts) == Waits(ts[..n]) + {n};
    }
  }

  // ---- Every project has a leaf ----

  lemma {:induction false} LeafBelow(ts: seq<Task>, r: Rank, t: Task) returns (l: Task)
    requires Ranked(ts, r) && t in ts
    ensures l in ts && IsLeaf(ts, l)
    decreases r[t.id]
  {
    l := t;
    if HasChild(ts, t.id) {
      var c :| c in ts && IsChild(c, t.id);
      l := LeafBelow(ts, r, c);
    }
  }

  lemma SomeLeaf(p: Snapshot, cap: nat)
    requires Sound(p, cap) && p.tasks != []
    ensures HasLeaf(p.tasks)
  {
    var r :| SoundBy(p, cap, r);
    assert p.tasks[0] in p.tasks;
    var l := LeafBelow(p.tasks, r, p.tasks[0]);
  }

  /** When nothing waits, every leaf is complete. */
  lemma NothingWaits(p: Snapshot, cap: nat)
    requires Sound(p, cap) && p.tasks != [] && Unhindered(p.tasks, cap)
    ensures LeavesComplete(p.tasks) <==> Waits(p.tasks) == {}
  {
    hide Sound, Unhindered, Waits;
    SomeLeaf(p, cap);
    SoundFacts(p, cap);
    UnfinishedWaits(p.tasks, cap);
    hide Structured, Phased, OneActive, Accounted, StatusEarned, UniqueIds;
    if Waits(p.tasks) == {} {
      forall t | t in p.tasks && IsLeaf(p.tasks, t)
        ensures Complete(t.status)
      {
        var i: nat :| i < |p.tasks| && p.tasks[i] == t;
        assert i !in Unfinished(p.tasks);
      }
    } else {
      var i: nat :| i in Unfinished(p.tasks);
      assert p.tasks[i] in p.tasks;
    }
  }

  // ---- Selection ----

  /**
   On an unhindered project, with complete dependencies enough, the selector after the aggregations picks a task that
   waits as long as there is one, and then reports completion.
   */
  lemma SelectionServes(p: Snapshot, cap: nat, ts: seq<Task>, mid: Snapshot, q: Snapshot, r: Selection)
    requires Sound(p, cap) && p.tasks != [] && Unhindered(p.tasks, cap)
    requires Aggregated(CandidateRule, p.tasks, ts) && Aggregated(VerifiedRule, ts, mid.tasks) && mid == p.(tasks := mid.tasks)
    requires Selects(CandidateCompletePolicy, mid, q, r) && !TwoInProgress(mid.tasks) && Sound(q, cap)
    ensures Served(p.tasks, q.tasks) && Waits(q.tasks) == Waits(p.tasks)
    ensures if Waits(p.tasks) != {} then r.Picked? && q.status == p.status
            else r.Nothing? && q.status == ProjectCandidateComplete && LeavesComplete(q.tasks)
  {
    hide *;
    SoundFacts(p, cap);
    AggregationServes(CandidateRule, p.tasks, ts);
    AggregationKeepsSound(CandidateRule, p, p.(tasks := ts), cap);
    SoundFacts(p.(tasks := ts), cap);
    AggregationServes(VerifiedRule, ts, mid.tasks);
    ServedFurther(p.tasks, ts, mid.tasks);
    SelectedServes(mid, q, r);
    ServedFurther(p.tasks, mid.tasks, q.tasks);
    ServedStaysUnhindered(p.tasks, q.tasks, cap);
    SameLength(p.tasks, q.tasks);
    NothingWaits(q, cap);
    SelectedEnds(p, cap, ts, mid, q, r);
  }

  lemma SameLength(ts: seq<Task>, us: seq<Task>)
    requires Served(ts, us)
    ensures |ts| == |us|
  {
  }

  lemma SelectedServes(p: Snapshot, q: Snapshot, r: Selection)
    requires Selects(CandidateCompletePolicy, p, q, r) && !TwoInProgress(p.tasks)
    ensures Served(p.tasks, q.tasks) && Waits(q.tasks) == Waits(p.tasks)
  {
    if AnyWith(p.tasks, InProgress) {
      assert q.tasks == p.tasks;
      ServedItself(p.tasks);
    } else {
      ReleaseMeans(CandidateCompletePolicy, p.tasks, q.tasks);
      ReleaseServes(CandidateCompletePolicy, p.tasks, q.tasks);
    }
  }

  lemma SelectedEnds(p: Snapshot, cap: nat, ts: seq<Task>, mid: Snapshot, q: Snapshot, r: Selection)
    requires Sound(p, cap) && Unhindered(p.tasks, cap) && Unhindered(q.tasks, cap)
    requires Aggregated(CandidateRule, p.tasks, ts) && Aggregated(VerifiedRule, ts, mid.tasks) && mid == p.(tasks := mid.tasks)
    requires Selects(CandidateCompletePolicy, mid, q, r) && !TwoInProgress(mid.tasks)
    requires LeavesComplete(q.tasks) <==> Waits(q.tasks) == {}
    ensures if Waits(q.tasks) != {} then r.Picked? && q.status == p.status
            else r.Nothing? && q.status == ProjectCandidateComplete && LeavesComplete(q.tasks)
  {
    hide Sound, Aggregated, Released, LeavesComplete;
    if AnyWith(mid.tasks, InProgress) {
      var t :| t in mid.tasks && t.status == InProgress;
      var i: nat :| i < |q.tasks| && q.tasks[i] == t;
      assert i in Waits(q.tasks);
    } else if AnyWith(q.tasks, Ready) {
      var t :| t in q.tasks && t.status == Ready;
      var i: nat :| i < |q.tasks| && q.tasks[i] == t;
      assert i in Waits(q.tasks);
    } else {
      assert !AnyWith(p.tasks, Failed) && !AnyWith(q.tasks, Blocked);
      NoDeadlock(p, cap, ts, mid.tasks, q.tasks);
    }
  }
}
