/** What every step of a project run keeps. */
module Invariant {
  import opened Common
  import opened Schema
  import opened TaskGraph
  import opened Validator
  import V = Verdict

  // ---- Statuses at rest ----

  predicate ParentStatus(s: TaskStatus) {
    s == Decomposed || s == CandidateComplete || s == Verified
  }

  /** May this task have this status, given whether it has children? */
  predicate Fits(t: Task, hasChild: bool) {
    && t.status != VerificationPending && t.status != Reopened
    && (hasChild ==> ParentStatus(t.status))
    && (t.status == Decomposed ==> hasChild)
    && (t.status == Verified && !hasChild ==> t.mark == VerdictMark(V.Verified))
  }

  ghost predicate Phased(ts: seq<Task>) {
    forall t {:trigger HasChild(ts, t.id)} :: t in ts ==> Fits(t, HasChild(ts, t.id))
  }

  // ---- Session accounting ----

  ghost function SessionBag(ts: seq<Task>): multiset<nat> {
    if ts == [] then multiset{}
    else SessionBag(ts[..|ts| - 1]) + multiset(ts[|ts| - 1].sessions)
  }

  ghost function UpTo(n: nat): multiset<nat> {
    if n == 0 then multiset{} else UpTo(n - 1) + multiset{n}
  }

  /** Every session number from 1 on was given to exactly one task, once. */
  ghost predicate Accounted(ts: seq<Task>, sessionCount: nat, cap: nat) {
    && SessionBag(ts) == UpTo(sessionCount)
    && forall t :: t in ts ==> t.attempts == |t.sessions| <= cap
  }

  lemma {:induction false} SessionBagReplace(ts: seq<Task>, k: nat, t: Task)
    requires k < |ts| && ts[k].sessions <= t.sessions
    ensures SessionBag(ts[k := t]) == SessionBag(ts) + multiset(t.sessions[|ts[k].sessions|..])
  {
    var n := |ts| - 1;
    if k == n {
      assert ts[k := t][..n] == ts[..n];
      assert t.sessions == ts[k].sessions + t.sessions[|ts[k].sessions|..];
    } else {
      assert ts[k := t][..n] == ts[..n][k := t];
      SessionBagReplace(ts[..n], k, t);
    }
  }

  lemma {:induction false} SessionBagAppend(ts: seq<Task>, us: seq<Task>)
    requires forall u :: u in us ==> u.sessions == []
    ensures SessionBag(ts + us) == SessionBag(ts)
  {
    if us == [] {
      assert ts + us == ts;
    } else {
      var n := |ts + us| - 1;
      assert (ts + us)[..n] == ts + us[..|us| - 1];
      assert (ts + us)[n] == us[|us| - 1];
      SessionBagAppend(ts, us[..|us| - 1]);
    }
  }

  lemma {:induction false} SameSessionsSameBag(ts: seq<Task>, us: seq<Task>)
    requires |ts| == |us| && forall i :: 0 <= i < |ts| ==> us[i].sessions == ts[i].sessions
    ensures SessionBag(us) == SessionBag(ts)
  {
    if ts != [] { SameSessionsSameBag(ts[..|ts| - 1], us[..|us| - 1]); }
  }

  ghost function TotalAttempts(ts: seq<Task>): nat {
    if ts == [] then 0 else TotalAttempts(ts[..|ts| - 1]) + ts[|ts| - 1].attempts
  }

  lemma {:induction false} UpToCounts(n: nat, x: nat)
    ensures |UpTo(n)| == n
    ensures UpTo(n)[x] == if 1 <= x <= n then 1 else 0
  {
    if n > 0 { UpToCounts(n - 1, x); }
  }

  lemma {:induction false} AttemptsAreSessions(ts: seq<Task>)
    requires forall t :: t in ts ==> t.attempts == |t.sessions|
    ensures TotalAttempts(ts) == |SessionBag(ts)|
  {
    if ts != [] { AttemptsAreSessions(ts[..|ts| - 1]); }
  }

  lemma {:induction false} InBag(ts: seq<Task>, k: nat, x: nat)
    requires k < |ts|
    ensures SessionBag(ts)[x] >= multiset(ts[k].sessions)[x]
  {
    if k < |ts| - 1 { InBag(ts[..|ts| - 1], k, x); }
  }

  lemma {:induction false} InBagTwice(ts: seq<Task>, j: nat, k: nat, x: nat)
    requires j < k < |ts|
    ensures SessionBag(ts)[x] >= multiset(ts[j].sessions)[x] + multiset(ts[k].sessions)[x]
  {
    if k < |ts| - 1 { InBagTwice(ts[..|ts| - 1], j, k, x); } else { InBag(ts[..|ts| - 1], j, x); }
  }

  /** The count is the sum of the attempts, no session number is shared or repeated, and no task is over its limit. */
  lemma AccountingMeans(ts: seq<Task>, sessionCount: nat, cap: nat)
    requires Accounted(ts, sessionCount, cap)
    ensures forall t :: t in ts ==> |t.sessions| <= cap
    ensures TotalAttempts(ts) == sessionCount == |SessionBag(ts)|
    ensures forall j, x :: 0 <= j < |ts| && x in ts[j].sessions ==> 1 <= x <= sessionCount && multiset(ts[j].sessions)[x] == 1
    ensures forall j, k, x :: 0 <= j < k < |ts| && x in ts[j].sessions ==> x !in ts[k].sessions
  {
    AttemptsAreSessions(ts);
    UpToCounts(sessionCount, 0);
    forall j, x | 0 <= j < |ts| && x in ts[j].sessions
      ensures 1 <= x <= sessionCount && multiset(ts[j].sessions)[x] == 1
    {
      InBag(ts, j, x);
      UpToCounts(sessionCount, x);
      assert multiset(ts[j].sessions)[x] >= 1;
    }
    forall j, k, x | 0 <= j < k < |ts| && x in ts[j].sessions
      ensures x !in ts[k].sessions
    {
      InBagTwice(ts, j, k, x);
      UpToCounts(sessionCount, x);
      assert multiset(ts[j].sessions)[x] >= 1;
      assert multiset(ts[k].sessions)[x] == 0;
    }
  }

  // ---- Project-level verification ----

  ghost predicate LeavesVerified(ts: seq<Task>) {
    HasLeaf(ts) && forall t :: t in ts && IsLeaf(ts, t) ==> t.status == Verified
  }

  ghost predicate StatusEarned(p: Snapshot) {
    && (p.status == ProjectVerificationPending || p.status == ProjectCandidateComplete ==> LeavesComplete(p.tasks))
    && (p.status == ProjectVerified ==> LeavesVerified(p.tasks) && p.report.Some? && p.report.value.verdict == V.Verified)
  }

  /** Not complete in any sense, so tasks may change. */
  predicate Open(p: Snapshot) {
    p.status != ProjectVerificationPending && p.status != ProjectVerified && p.status != ProjectCandidateComplete
  }

  // ---- The invariant ----

  ghost predicate SoundBy(p: Snapshot, cap: nat, r: Rank) {
    && StructuredBy(p.projectId, p.tasks, r)
    && Phased(p.tasks) && OneActive(p.tasks, p.active) && Accounted(p.tasks, p.sessionCount, cap) && StatusEarned(p)
  }

  /** Holds at every point between two steps of a run; `cap` is the session limit of a task. */
  ghost predicate Sound(p: Snapshot, cap: nat) {
    exists r :: SoundBy(p, cap, r)
  }

  /** A snapshot a save accepts. */
  ghost predicate Persistable(p: Snapshot, cap: nat) {
    Sound(p, cap) && ValidGraph(p.tasks, p.active)
  }

  /** On a sound project the save is refused exactly for a repeated key. */
  lemma SaveRefusedOnlyForKeys(p: Snapshot, cap: nat)
    requires Sound(p, cap)
    ensures ValidGraph(p.tasks, p.active) <==> UniqueKeys(p.tasks)
  {
    SoundFacts(p, cap);
    StructuredIsPlaced(p.projectId, p.tasks);
  }

  lemma SoundFacts(p: Snapshot, cap: nat)
    requires Sound(p, cap)
    ensures Structured(p.projectId, p.tasks) && UniqueIds(p.tasks) && Phased(p.tasks)
    ensures OneActive(p.tasks, p.active) && Accounted(p.tasks, p.sessionCount, cap) && StatusEarned(p)
  {
    var r :| SoundBy(p, cap, r);
    assert StructuredBy(p.projectId, p.tasks, r);
  }

  /** An unfinished leaf keeps the project open. */
  lemma UnfinishedLeafMeansOpen(p: Snapshot, cap: nat, t: Task)
    requires Sound(p, cap) && t in p.tasks && !ParentStatus(t.status)
    ensures Open(p) && IsLeaf(p.tasks, t)
  {
    SoundFacts(p, cap);
    assert HasChild(p.tasks, t.id) || !HasChild(p.tasks, t.id);
  }

  // ---- Steps ----

  /** The task list keeps its shape, and the rest of the invariant is shown for the new project. */
  lemma ShapeStep(p: Snapshot, q: Snapshot, cap: nat)
    requires Sound(p, cap) && SameShapes(p.tasks, q.tasks) && q.projectId == p.projectId
    requires Phased(q.tasks) && OneActive(q.tasks, q.active) && Accounted(q.tasks, q.sessionCount, cap) && StatusEarned(q)
    ensures Sound(q, cap)
  {
    var r0 :| SoundBy(p, cap, r0);
    ShapesDecideStructure(p.projectId, p.tasks, q.tasks);
    var r :| StructuredBy(q.projectId, q.tasks, r);
    assert SoundBy(q, cap, r);
  }

  /** Statuses and marks may have changed, nothing else about the tasks. */
  ghost predicate Repainted(ts: seq<Task>, us: seq<Task>) {
    SameShapes(ts, us) && forall i :: 0 <= i < |ts| ==> us[i].sessions == ts[i].sessions && us[i].attempts == ts[i].attempts
  }

  lemma RepaintKeepsAccounts(ts: seq<Task>, us: seq<Task>, n: nat, cap: nat)
    requires Repainted(ts, us) && Accounted(ts, n, cap)
    ensures Accounted(us, n, cap)
  {
    SameSessionsSameBag(ts, us);
    forall u | u in us
      ensures u.attempts == |u.sessions| <= cap
    {
      var i :| 0 <= i < |us| && us[i] == u;
      assert ts[i] in ts;
    }
  }

  lemma RepaintKeepsSound(p: Snapshot, q: Snapshot, cap: nat)
    requires Sound(p, cap) && Repainted(p.tasks, q.tasks) && q.projectId == p.projectId && q.sessionCount == p.sessionCount
    requires Phased(q.tasks) && OneActive(q.tasks, q.active) && StatusEarned(q)
    ensures Sound(q, cap)
  {
    SoundFacts(p, cap);
    RepaintKeepsAccounts(p.tasks, q.tasks, p.sessionCount, cap);
    ShapeStep(p, q, cap);
  }

  /** One task got a new status; the active task is cleared if it was this one. */
  ghost predicate Retasked(ts: seq<Task>, k: nat, t: Task) {
    k < |ts| && SameShape(ts[k], t) && t.sessions == ts[k].sessions && t.attempts == ts[k].attempts
  }

  lemma OneTaskPhased(ts: seq<Task>, k: nat, t: Task)
    requires Phased(ts) && Retasked(ts, k, t) && Fits(t, HasChild(ts, ts[k].id))
    ensures Phased(ts[k := t]) && SameShapes(ts, ts[k := t])
  {
    var us := ts[k := t];
    SameKnown(ts, us);
    forall u | u in us
      ensures Fits(u, HasChild(us, u.id))
    {
      var i :| 0 <= i < |us| && us[i] == u;
      assert HasChild(us, u.id) == HasChild(ts, ts[i].id);
      assert ts[i] in ts;
    }
  }

  lemma OneTaskActive(ts: seq<Task>, k: nat, t: Task, active: Option<TaskId>, after: Option<TaskId>)
    requires UniqueIds(ts) && OneActive(ts, active) && Retasked(ts, k, t)
    requires t.status == InProgress ==> after == Some(t.id) && forall i :: 0 <= i < |ts| && i != k ==> ts[i].status != InProgress
    requires t.status != InProgress ==> after == if active == Some(t.id) then None else active
    ensures OneActive(ts[k := t], after)
  {
    var us := ts[k := t];
    if after.Some? {
      if t.status == InProgress {
        assert us[k] in us;
      } else {
        var u :| u in ts && u.id == after.value;
        var i :| 0 <= i < |ts| && ts[i] == u;
        assert us[i] in us;
      }
    }
  }

  /** The step behind every status move of a single task. */
  lemma RetaskKeepsSound(p: Snapshot, q: Snapshot, cap: nat, k: nat, t: Task)
    requires Sound(p, cap) && Open(p) && Retasked(p.tasks, k, t) && Fits(t, HasChild(p.tasks, p.tasks[k].id))
    requires t.status == InProgress ==>
               q.active == Some(t.id) && forall i :: 0 <= i < |p.tasks| && i != k ==> p.tasks[i].status != InProgress
    requires t.status != InProgress ==> q.active == if p.active == Some(t.id) then None else p.active
    requires q.tasks == p.tasks[k := t] && q.projectId == p.projectId && q.sessionCount == p.sessionCount && Open(q)
    ensures Sound(q, cap)
  {
    SoundFacts(p, cap);
    OneTaskPhased(p.tasks, k, t);
    OneTaskActive(p.tasks, k, t, p.active, q.active);
    RepaintKeepsSound(p, q, cap);
  }

  /** One more session number in the bag. */
  lemma SessionGrowsBag(ts: seq<Task>, k: nat, n: nat)
    requires k < |ts|
    ensures SessionBag(ts[k := WithSession(ts[k], n)]) == SessionBag(ts) + multiset{n}
  {
    hide SessionBag;
    var t := WithSession(ts[k], n);
    assert t.sessions[|ts[k].sessions|..] == [n] && multiset([n]) == multiset{n};
    SessionBagReplace(ts, k, t);
  }

  lemma SessionKeepsLimits(ts: seq<Task>, k: nat, n: nat, cap: nat)
    requires (forall t :: t in ts ==> t.attempts == |t.sessions| <= cap) && k < |ts| && |ts[k].sessions| < cap
    ensures forall u :: u in ts[k := WithSession(ts[k], n)] ==> u.attempts == |u.sessions| <= cap
  {
    assert ts[k] in ts;
  }

  lemma SessionKeepsAccounts(ts: seq<Task>, k: nat, before: nat, n: nat, cap: nat)
    requires Accounted(ts, before, cap) && n == before + 1 && k < |ts| && |ts[k].sessions| < cap
    ensures Accounted(ts[k := WithSession(ts[k], n)], n, cap)
  {
    SessionKeepsLimits(ts, k, n, cap);
    SessionGrowsBag(ts, k, n);
    assert UpTo(n) == UpTo(before) + multiset{n};
    hide SessionBag, UpTo, WithSession;
  }

  /** A session is opened on a task that may still have one. */
  lemma SessionKeepsSound(p: Snapshot, q: Snapshot, cap: nat, k: nat)
    requires Sound(p, cap) && Open(p) && k < |p.tasks| && |p.tasks[k].sessions| < cap
    requires q.sessionCount == p.sessionCount + 1 && q.tasks == p.tasks[k := WithSession(p.tasks[k], q.sessionCount)]
    requires q.projectId == p.projectId && q.active == p.active && Open(q)
    ensures Sound(q, cap)
  {
    SoundFacts(p, cap);
    SessionKeepsAccounts(p.tasks, k, p.sessionCount, q.sessionCount, cap);
    StatusesDecide(p.tasks, q.tasks, p.active);
    ShapeStep(p, q, cap);
  }

  lemma StatusesDecide(ts: seq<Task>, us: seq<Task>, active: Option<TaskId>)
    requires SameShapes(ts, us) && forall i :: 0 <= i < |ts| ==> us[i].status == ts[i].status && us[i].mark == ts[i].mark
    requires Phased(ts) && OneActive(ts, active)
    ensures Phased(us) && OneActive(us, active)
  {
    SameKnown(ts, us);
    forall u | u in us
      ensures Fits(u, HasChild(us, u.id))
    {
      var i :| 0 <= i < |us| && us[i] == u;
      assert ts[i] in ts;
      assert HasChild(us, u.id) == HasChild(ts, ts[i].id);
    }
  }
}
