/** Task and project records, and the graph validation every save performs. */
module Schema {
  import opened Common
  import V = Verdict

  type TaskId = string

  datatype TaskStatus =
    | Pending | Ready | InProgress | Blocked | CandidateComplete | Decomposed | Failed
    | VerificationPending | Verified | Reopened

  datatype ProjectStatus =
    | Active | ProjectCandidateComplete | ProjectBlocked | ProjectFailed | SessionLimitReached | TimeLimitReached
    | ProjectVerificationPending | ProjectVerified | PartiallyVerified | VerificationInconclusive

  /** The `verification_status` text of a task. */
  datatype Mark = Unmarked | VerdictMark(verdict: V.Verdict) | VerifiedByChildren

  datatype Task = Task(
    id: TaskId, key: string, objective: string, dependencies: seq<TaskId>, parent: Option<TaskId>, depth: nat, createdAt: int,
    status: TaskStatus, attempts: nat, sessions: seq<nat>, noProgress: nat,
    contractBound: bool, mark: Mark, verificationAttempts: nat, reopens: nat)

  function NewTask(id: TaskId, key: string, objective: string, dependencies: seq<TaskId>, parent: Option<TaskId>,
                   depth: nat, createdAt: int): Task
  {
    Task(id, key, objective, dependencies, parent, depth, createdAt, Pending, 0, [], 0, false, Unmarked, 0, 0)
  }

  /** The task with one more attempt, made in session `n`. */
  function WithSession(t: Task, n: nat): Task {
    t.(attempts := t.attempts + 1, sessions := t.sessions + [n])
  }

  // ---- Looking tasks up ----

  predicate Known(ts: seq<Task>, id: TaskId) {
    exists t :: t in ts && t.id == id
  }

  /** Index of the first task with this id, or the length of the list. */
  function Find(ts: seq<Task>, id: TaskId): (k: nat)
    ensures k <= |ts|
    ensures k < |ts| ==> ts[k].id == id
    ensures forall i :: 0 <= i < k ==> ts[i].id != id
  {
    if ts == [] || ts[0].id == id then 0
    else
      assert forall i :: 1 <= i < |ts| ==> ts[i] == ts[1..][i - 1];
      1 + Find(ts[1..], id)
  }

  ghost predicate UniqueIds(ts: seq<Task>) {
    forall i, j :: 0 <= i < j < |ts| ==> ts[i].id != ts[j].id
  }

  predicate UniqueKeys(ts: seq<Task>) {
    forall i, j :: 0 <= i < j < |ts| ==> ts[i].key != ts[j].key
  }

  lemma FindKnown(ts: seq<Task>, id: TaskId)
    ensures Known(ts, id) <==> Find(ts, id) < |ts|
    ensures Find(ts, id) < |ts| ==> ts[Find(ts, id)] in ts
  {
    if Known(ts, id) {
      var i :| 0 <= i < |ts| && ts[i].id == id;
    }
  }

  lemma FindUnique(ts: seq<Task>, t: Task)
    requires UniqueIds(ts) && t in ts
    ensures Find(ts, t.id) < |ts| && ts[Find(ts, t.id)] == t
  {
    var i :| 0 <= i < |ts| && ts[i] == t;
  }

  /** A task is found at its place, also when others are appended. */
  lemma FindInLonger(ts: seq<Task>, cs: seq<Task>, k: nat)
    requires UniqueIds(ts) && k < |ts|
    ensures Known(ts + cs, ts[k].id) && Find(ts + cs, ts[k].id) == k
  {
    var us := ts + cs;
    assert us[k] == ts[k] && us[k] in us;
    FindKnown(us, ts[k].id);
    assert forall i :: 0 <= i < k ==> us[i] == ts[i];
  }

  lemma FindIndex(ts: seq<Task>, k: nat)
    requires UniqueIds(ts) && k < |ts|
    ensures Known(ts, ts[k].id) && Find(ts, ts[k].id) == k
  {
    FindInLonger(ts, [], k);
    assert ts + [] == ts;
  }

  /** Rewriting a task in place keeps the ids unique. */
  lemma StillUnique(ts: seq<Task>, k: nat, t: Task)
    requires UniqueIds(ts) && k < |ts| && t.id == ts[k].id
    ensures UniqueIds(ts[k := t])
  {
  }

  predicate IsChild(c: Task, id: TaskId) {
    c.parent == Some(id)
  }

  predicate HasChild(ts: seq<Task>, id: TaskId) {
    exists c :: c in ts && IsChild(c, id)
  }

  function ChildDepth(t: Task): nat {
    t.depth + 1
  }

  predicate IsLeaf(ts: seq<Task>, t: Task) {
    !HasChild(ts, t.id)
  }

  predicate Complete(s: TaskStatus) {
    s == CandidateComplete || s == Verified
  }

  predicate HasLeaf(ts: seq<Task>) {
    exists t :: t in ts && IsLeaf(ts, t)
  }

  /** `leaves and all(leaf complete)`. */
  predicate LeavesComplete(ts: seq<Task>) {
    HasLeaf(ts) && forall t :: t in ts && IsLeaf(ts, t) ==> Complete(t.status)
  }

  // ---- The validator run by every save ----

  predicate OneActive(ts: seq<Task>, active: Option<TaskId>) {
    && (forall i, j :: 0 <= i < j < |ts| ==> !(ts[i].status == InProgress && ts[j].status == InProgress))
    && (active.Some? ==> Known(ts, active.value))
    && (forall i :: 0 <= i < |ts| && ts[i].status == InProgress ==> active == Some(ts[i].id))
  }

  predicate Placed(ts: seq<Task>, t: Task) {
    && (forall d :: d in t.dependencies ==> Known(ts, d))
    && match t.parent
       case None => t.depth == 0
       case Some(p) => Known(ts, p) && Find(ts, p) < |ts| && t.depth == ts[Find(ts, p)].depth + 1
  }

  predicate ValidGraph(ts: seq<Task>, active: Option<TaskId>) {
    UniqueKeys(ts) && OneActive(ts, active) && forall i :: 0 <= i < |ts| ==> Placed(ts, ts[i])
  }

  // ---- The project record ----

  /** The value of a project: what a save writes and a load reads. */
  datatype Snapshot = Snapshot(
    projectId: string, tasks: seq<Task>, active: Option<TaskId>, status: ProjectStatus,
    planVersion: nat, sessionCount: nat, verificationAttempts: nat, report: Option<V.Report>)

  class ProjectState {
    const projectId: string
    var tasks: seq<Task>
    var active: Option<TaskId>
    var status: ProjectStatus
    var planVersion: nat
    var sessionCount: nat
    var verificationAttempts: nat
    var report: Option<V.Report>

    constructor (projectId: string)
      ensures Snap() == Snapshot(projectId, [], None, Active, 0, 0, 0, None)
    {
      this.projectId := projectId;
      tasks, active, status := [], None, Active;
      planVersion, sessionCount, verificationAttempts, report := 0, 0, 0, None;
    }

    function Snap(): Snapshot
      reads this
    {
      Snapshot(projectId, tasks, active, status, planVersion, sessionCount, verificationAttempts, report)
    }
  }
}
