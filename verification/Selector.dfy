/** Releasing tasks whose dependencies are met, and picking the next task to work on. */
module Selector {
  import opened Common
  import opened Schema
  import opened Transitions

  datatype Policy = CandidateCompletePolicy | VerifiedPolicy

  predicate Satisfying(policy: Policy, s: TaskStatus) {
    s == Verified || (policy == CandidateCompletePolicy && s == CandidateComplete)
  }

  predicate DependencyMet(policy: Policy, ts: seq<Task>, d: TaskId) {
    exists t :: t in ts && t.id == d && Satisfying(policy, t.status)
  }

  predicate Releasable(policy: Policy, ts: seq<Task>, t: Task) {
    t.status == Pending && forall d :: d in t.dependencies ==> DependencyMet(policy, ts, d)
  }

  function Release(policy: Policy, ts: seq<Task>, t: Task): Task {
    if Releasable(policy, ts, t) then t.(status := Ready) else t
  }

  /** `us` is `ts` with exactly the releasable tasks made ready. */
  ghost predicate Released(policy: Policy, ts: seq<Task>, us: seq<Task>) {
    |us| == |ts| && forall i :: 0 <= i < |ts| ==> us[i] == Release(policy, ts, ts[i])
  }

  /** The ids of the released tasks among the first `n`. */
  ghost predicate ListsReleased(policy: Policy, ts: seq<Task>, n: nat, ready: seq<TaskId>) {
    n <= |ts| && forall id :: id in ready <==> exists j :: 0 <= j < n && ts[j].id == id && Releasable(policy, ts, ts[j])
  }

  lemma ListOneMore(policy: Policy, ts: seq<Task>, n: nat, ready: seq<TaskId>)
    requires n < |ts| && ListsReleased(policy, ts, n, ready)
    ensures ListsReleased(policy, ts, n + 1, if Releasable(policy, ts, ts[n]) then ready + [ts[n].id] else ready)
  {
  }

  /** Each dependency is a task that is verified, or complete where the policy takes that. */
  ghost predicate DependenciesDone(policy: Policy, ts: seq<Task>, t: Task) {
    forall d :: d in t.dependencies ==>
      exists j :: 0 <= j < |ts| && ts[j].id == d
        && (ts[j].status == Verified || (ts[j].status == CandidateComplete && policy == CandidateCompletePolicy))
  }

  /** Only pending tasks change, they become ready, and exactly those do whose dependencies are done. */
  ghost predicate ReadyWhenDone(policy: Policy, ts: seq<Task>, us: seq<Task>) {
    |us| == |ts| && forall i :: 0 <= i < |ts| ==>
      && (us[i] == ts[i] || (ts[i].status == Pending && us[i] == ts[i].(status := Ready)))
      && (us[i] != ts[i] <==> ts[i].status == Pending && DependenciesDone(policy, ts, ts[i]))
  }

  lemma ReleaseMeans(policy: Policy, ts: seq<Task>, us: seq<Task>)
    requires Released(policy, ts, us)
    ensures ReadyWhenDone(policy, ts, us)
  {
    forall d
      ensures DependencyMet(policy, ts, d) <==>
              exists j :: 0 <= j < |ts| && ts[j].id == d
                && (ts[j].status == Verified || (ts[j].status == CandidateComplete && policy == CandidateCompletePolicy))
    {
      if DependencyMet(policy, ts, d) {
        var t :| t in ts && t.id == d && Satisfying(policy, t.status);
        var j :| 0 <= j < |ts| && ts[j] == t;
      }
    }
  }

  /** The first `n` tasks are released, the others untouched. */
  ghost predicate ReleasedUpTo(policy: Policy, ts: seq<Task>, us: seq<Task>, n: nat) {
    && |us| == |ts|
    && (forall j :: 0 <= j < |ts| ==> us[j] == if j < n then Release(policy, ts, ts[j]) else ts[j])
  }

  lemma NothingReleased(policy: Policy, ts: seq<Task>)
    ensures ListsReleased(policy, ts, 0, [])
  {
  }

  lemma AllReleased(policy: Policy, ts: seq<Task>, us: seq<Task>)
    requires ReleasedUpTo(policy, ts, us, |ts|)
    ensures Released(policy, ts, us)
  {
  }

  method UpdateReadyTasks(state: ProjectState, policy: Policy) returns (ready: seq<TaskId>)
    requires UniqueIds(state.tasks)
    modifies state`tasks, state`active
    ensures Released(policy, old(state.tasks), state.tasks)
    ensures ListsReleased(policy, old(state.tasks), |old(state.tasks)|, ready)
    ensures ReadyWhenDone(policy, old(state.tasks), state.tasks)
    ensures state.active == if old(state.active).Some? && old(state.active).value in ready then None else old(state.active)
  {
    hide DependencyMet, ReadyWhenDone, Released, ListsReleased;
    var ts := state.tasks;
    ready := [];
    NothingReleased(policy, ts);
    for i := 0 to |ts|
      invariant ReleasedUpTo(policy, ts, state.tasks, i)
      invariant ListsReleased(policy, ts, i, ready)
      invariant state.active == if old(state.active).Some? && old(state.active).value in ready then None else old(state.active)
    {
      ListOneMore(policy, ts, i, ready);
      if Releasable(policy, ts, ts[i]) {
        FirstWithId(ts, state.tasks, i);
        var moved := Transition(state, ts[i].id, Ready);
        ready := ready + [ts[i].id];
      }
    }
    AllReleased(policy, ts, state.tasks);
    ReleaseMeans(policy, ts, state.tasks);
  }

  lemma FirstWithId(ts: seq<Task>, us: seq<Task>, i: nat)
    requires UniqueIds(ts) && i < |ts| == |us| && forall j :: 0 <= j < |us| ==> us[j].id == ts[j].id
    ensures Find(us, ts[i].id) == i && Known(us, ts[i].id)
  {
    assert us[i] in us;
    FindKnown(us, ts[i].id);
  }

  // ---- Picking ----

  predicate AnyWith(ts: seq<Task>, s: TaskStatus) {
    exists t :: t in ts && t.status == s
  }

  /** The order in which ready tasks are taken: by depth, then age, then id. */
  predicate Before(a: Task, b: Task) {
    a.depth < b.depth
    || (a.depth == b.depth && (a.createdAt < b.createdAt
                               || (a.createdAt == b.createdAt && StringLess(a.id, b.id))))
  }

  lemma BeforeIsTransitive(a: Task, b: Task, c: Task)
    requires Before(a, b) && Before(b, c)
    ensures Before(a, c) && !Before(c, a)
  {
    if StringLess(a.id, b.id) && StringLess(b.id, c.id) { StringLessIsTransitive(a.id, b.id, c.id); }
    StringLessIsStrict(a.id, c.id);
    StringLessIsStrict(a.id, b.id);
    StringLessIsStrict(b.id, c.id);
  }

  ghost predicate FirstReady(ts: seq<Task>, t: Task) {
    t in ts && t.status == Ready && forall u :: u in ts && u.status == Ready ==> !Before(u, t)
  }

  /** The task runs, or no ready task is higher in the tree, or as high and older, or as high and old and first by id. */
  ghost predicate Foremost(ts: seq<Task>, k: nat) {
    k < |ts| && (ts[k].status == InProgress || ts[k].status == Ready)
    && (ts[k].status == Ready ==> forall i :: 0 <= i < |ts| && ts[i].status == Ready ==>
          && ts[k].depth <= ts[i].depth
          && (ts[k].depth == ts[i].depth ==> ts[k].createdAt <= ts[i].createdAt)
          && (ts[k].depth == ts[i].depth && ts[k].createdAt == ts[i].createdAt ==> !StringLess(ts[i].id, ts[k].id)))
  }

  lemma FirstIsForemost(ts: seq<Task>, t: Task)
    requires FirstReady(ts, t)
    ensures exists k :: 0 <= k < |ts| && ts[k] == t && Foremost(ts, k)
  {
    var k :| 0 <= k < |ts| && ts[k] == t;
    forall i | 0 <= i < |ts| && ts[i].status == Ready
      ensures !Before(ts[i], t)
    {
      assert ts[i] in ts;
    }
    assert Foremost(ts, k);
  }

  lemma RunningIsForemost(ts: seq<Task>, t: Task)
    requires t in ts && t.status == InProgress
    ensures exists k :: 0 <= k < |ts| && ts[k] == t && Foremost(ts, k)
  {
    var k :| 0 <= k < |ts| && ts[k] == t;
    assert Foremost(ts, k);
  }

  method PickReady(ts: seq<Task>) returns (best: Option<Task>)
    ensures best.None? <==> !AnyWith(ts, Ready)
    ensures best.Some? ==> FirstReady(ts, best.value)
    ensures best.Some? ==> exists k :: 0 <= k < |ts| && ts[k] == best.value && Foremost(ts, k)
  {
    best := None;
    for i := 0 to |ts|
      invariant best.None? <==> forall j :: 0 <= j < i ==> ts[j].status != Ready
      invariant best.Some? ==> best.value in ts && best.value.status == Ready
      invariant best.Some? ==> forall j :: 0 <= j < i && ts[j].status == Ready ==> !Before(ts[j], best.value)
    {
      if ts[i].status == Ready {
        if best.None? || Before(ts[i], best.value) {
          forall j | 0 <= j < i && ts[j].status == Ready && best.Some?
            ensures !Before(ts[j], ts[i])
          {
            if Before(ts[j], ts[i]) { BeforeIsTransitive(ts[j], ts[i], best.value); }
          }
          StringLessIsStrict(ts[i].id, ts[i].id);
          best := Some(ts[i]);
        }
      }
    }
    if best.Some? { FirstIsForemost(ts, best.value); }
  }

  datatype Selection = Picked(id: TaskId) | Nothing | SeveralInProgress | NoReachableTask

  predicate TwoInProgress(ts: seq<Task>) {
    exists i, j :: 0 <= i < j < |ts| && ts[i].status == InProgress && ts[j].status == InProgress
  }

  /** The answer when nothing is in progress and nothing is ready, with the project status it sets. */
  function Exhausted(ts: seq<Task>, status: ProjectStatus): (Selection, ProjectStatus) {
    if LeavesComplete(ts) then (Nothing, ProjectCandidateComplete)
    else if AnyWith(ts, Blocked) then (Nothing, ProjectBlocked)
    else if AnyWith(ts, Pending) || AnyWith(ts, Ready) || AnyWith(ts, InProgress) then (NoReachableTask, status)
    else (Nothing, status)
  }

  /** The task in progress, or the first ready task after the release, or the reason why there is none. */
  ghost predicate Selects(policy: Policy, p: Snapshot, q: Snapshot, r: Selection) {
    if TwoInProgress(p.tasks) then r.SeveralInProgress? && q == p
    else if AnyWith(p.tasks, InProgress) then
      r.Picked? && q == p.(active := Some(r.id)) && exists t :: t in p.tasks && t.id == r.id && t.status == InProgress
    else
      && Released(policy, p.tasks, q.tasks)
      && if AnyWith(q.tasks, Ready)
         then r.Picked? && q == p.(tasks := q.tasks, active := Some(r.id)) && exists t :: FirstReady(q.tasks, t) && t.id == r.id
         else (r, q.status) == Exhausted(q.tasks, p.status) && q == p.(tasks := q.tasks, active := q.active, status := q.status)
              && (q.active == p.active || q.active == None)
  }

  /** The task in progress, if there is one; `several` says that there are more. */
  method FindRunning(ts: seq<Task>) returns (running: Option<Task>, several: bool)
    ensures several <==> TwoInProgress(ts)
    ensures !several ==> (running.None? <==> !AnyWith(ts, InProgress))
    ensures running.Some? ==> running.value in ts && running.value.status == InProgress
  {
    running := None;
    for i := 0 to |ts|
      invariant running.None? <==> forall j :: 0 <= j < i ==> ts[j].status != InProgress
      invariant running.Some? ==> exists j :: 0 <= j < i && ts[j] == running.value && running.value.status == InProgress
      invariant forall j, k :: 0 <= j < k < i ==> !(ts[j].status == InProgress && ts[k].status == InProgress)
    {
      if ts[i].status == InProgress {
        if running.Some? { return running, true; }
        running := Some(ts[i]);
      }
    }
    several := false;
  }

  /** `NoReachableTask` and `SeveralInProgress` stand for the two errors the source raises. */
  method SelectNext(state: ProjectState, policy: Policy) returns (r: Selection)
    requires UniqueIds(state.tasks)
    modifies state`tasks, state`active, state`status
    ensures Selects(policy, old(state.Snap()), state.Snap(), r)
    ensures state.tasks == old(state.tasks) || ReadyWhenDone(policy, old(state.tasks), state.tasks)
    ensures r.Picked? ==> exists k :: 0 <= k < |state.tasks| && state.tasks[k].id == r.id && Foremost(state.tasks, k)
  {
    hide Released, ReadyWhenDone, LeavesComplete, AnyWith, TwoInProgress, Foremost;
    var running, several := FindRunning(state.tasks);
    if several { return SeveralInProgress; }
    if running.Some? {
      RunningIsForemost(state.tasks, running.value);
      state.active := Some(running.value.id);
      return Picked(running.value.id);
    }
    var ready := UpdateReadyTasks(state, policy);
    var first := PickReady(state.tasks);
    if first.Some? {
      state.active := Some(first.value.id);
      return Picked(first.value.id);
    }
    if LeavesComplete(state.tasks) {
      state.status := ProjectCandidateComplete;
      return Nothing;
    }
    if AnyWith(state.tasks, Blocked) {
      state.status := ProjectBlocked;
      return Nothing;
    }
    if AnyWith(state.tasks, Pending) || AnyWith(state.tasks, Ready) || AnyWith(state.tasks, InProgress) {
      return NoReachableTask;
    }
    return Nothing;
  }
}
