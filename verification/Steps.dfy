/** The steps of a run keep the invariant: planning, aggregation, selection and decomposition. */
module Steps {
  import opened Common
  import opened Schema
  import opened TaskGraph
  import opened Validator
  import opened Invariant
  import opened Aggregation
  import opened Selector
  import opened Transitions
  import A = Acyclicity
  import V = Verdict

  // ---- Planning ----

  lemma EmptyIsSound(p: Snapshot, cap: nat)
    requires p.tasks == [] && p.active == None && p.sessionCount == 0 && Open(p)
    ensures Sound(p, cap) && ValidGraph(p.tasks, p.active)
  {
    assert StructuredBy(p.projectId, [], map[]);
    assert SoundBy(p, cap, map[]);
  }

  lemma PendingIsPhased(ts: seq<Task>, prefix: string)
    requires forall t :: t in ts ==> Made(t, prefix, None, 0)
    ensures Phased(ts) && OneActive(ts, None)
  {
    forall t | t in ts
      ensures !HasChild(ts, t.id)
    {
      assert forall c :: c in ts ==> Made(c, prefix, None, 0) && !IsChild(c, t.id);
    }
    forall i | 0 <= i < |ts|
      ensures ts[i].status == Pending
    {
      assert Made(ts[i], prefix, None, 0);
    }
  }

  lemma NoSessions(ts: seq<Task>, cap: nat)
    requires forall t :: t in ts ==> t.attempts == 0 && t.sessions == []
    ensures Accounted(ts, 0, cap)
  {
    SessionBagAppend([], ts);
    assert [] + ts == ts;
  }

  lemma PlanIsSound(p: Snapshot, drafts: seq<Draft>, min: int, max: int, clock: nat -> int, cap: nat)
    requires Valid(drafts, None, min, max)
    requires p.tasks == PlanTasks(p.projectId, drafts, clock) && p.active == None && p.sessionCount == 0 && Open(p)
    ensures Sound(p, cap)
  {
    PlanIsStructured(p.projectId, drafts, min, max, clock);
    FamilyMembers(p.tasks, p.projectId, None, 0);
    PendingIsPhased(p.tasks, p.projectId);
    NoSessions(p.tasks, cap);
    var r :| StructuredBy(p.projectId, p.tasks, r);
    assert SoundBy(p, cap, r);
  }

  lemma FamilyMembers(cs: seq<Task>, prefix: string, parent: Option<TaskId>, depth: nat)
    requires NewFamily(cs, prefix, parent, depth)
    ensures forall c :: c in cs ==> Made(c, prefix, parent, depth)
  {
    var r, bound :| Family(cs, prefix, parent, depth, r, bound);
  }

  // ---- Aggregation ----

  lemma AggregationKeepsLeaves(rule: Rule, ts: seq<Task>, us: seq<Task>)
    requires UniqueIds(ts) && Aggregated(rule, ts, us)
    ensures forall i :: 0 <= i < |us| && us[i] != ts[i] ==> HasChild(us, us[i].id)
    ensures LeavesComplete(ts) ==> LeavesComplete(us)
    ensures LeavesVerified(ts) ==> LeavesVerified(us)
  {
    PromotesKeepsShapes(rule, ts, us);
    SameKnown(ts, us);
    forall i | 0 <= i < |us| && us[i] != ts[i]
      ensures HasChild(us, us[i].id)
    {
      PromotedHasChild(rule, ts, us, i);
    }
    forall u | u in us && IsLeaf(us, u)
      ensures u in ts && IsLeaf(ts, u)
    {
      var i :| 0 <= i < |us| && us[i] == u;
    }
    if HasLeaf(ts) {
      var t :| t in ts && IsLeaf(ts, t);
      var u := Twin(us, ts, t);
      assert IsLeaf(us, u);
    }
  }

  lemma PromotesKeepsActive(rule: Rule, ts: seq<Task>, us: seq<Task>, active: Option<TaskId>)
    requires Promotes(rule, ts, us) && OneActive(ts, active)
    ensures OneActive(us, active) && Repainted(ts, us)
  {
    PromotesKeepsShapes(rule, ts, us);
    SameKnown(ts, us);
    assert forall i :: 0 <= i < |us| && us[i].status == InProgress ==> us[i] == ts[i];
  }

  lemma PromotedFits(rule: Rule, t: Task, u: Task, hasChild: bool)
    requires Fits(t, hasChild) && (u == t || (Eligible(rule, t) && u == Promoted(rule, t) && hasChild))
    ensures Fits(u, hasChild)
  {
  }

  lemma AggregationKeepsPhase(rule: Rule, ts: seq<Task>, us: seq<Task>)
    requires UniqueIds(ts) && Aggregated(rule, ts, us) && Phased(ts)
    ensures Phased(us)
  {
    PromotesKeepsShapes(rule, ts, us);
    SameKnown(ts, us);
    AggregationKeepsLeaves(rule, ts, us);
    hide Stable, Forced, LeavesComplete, LeavesVerified, Fits, Eligible, Promoted, UniqueIds, HasChild;
    forall u | u in us
      ensures Fits(u, HasChild(us, u.id))
    {
      var i :| 0 <= i < |us| && us[i] == u;
      assert ts[i] in ts;
      assert HasChild(us, u.id) == HasChild(ts, ts[i].id);
      PromotedFits(rule, ts[i], u, HasChild(us, u.id));
    }
  }

  lemma AggregationKeepsSound(rule: Rule, p: Snapshot, q: Snapshot, cap: nat)
    requires Sound(p, cap) && Aggregated(rule, p.tasks, q.tasks) && q == p.(tasks := q.tasks)
    ensures Sound(q, cap)
  {
    SoundFacts(p, cap);
    AggregationKeepsPhase(rule, p.tasks, q.tasks);
    PromotesKeepsActive(rule, p.tasks, q.tasks, p.active);
    AggregationKeepsLeaves(rule, p.tasks, q.tasks);
    RepaintKeepsSound(p, q, cap);
  }

  /** Between steps no parent is kept back from CANDIDATE_COMPLETE, and only a contract keeps one back from VERIFIED. */
  lemma ParentsFollowWhenPhased(ts: seq<Task>)
    requires Phased(ts)
    ensures ParentsFollow(CandidateRule, ts)
    ensures ParentsFollow(VerifiedRule, ts) <==>
            forall p :: p in ts && HasChild(ts, p.id) && p.contractBound && LeavesDone(VerifiedRule, ts, p) ==> p.status == Verified
  {
    forall p | p in ts && HasChild(ts, p.id)
      ensures ParentStatus(p.status)
    {
      assert Fits(p, HasChild(ts, p.id));
    }
  }

  /** In a run, the complete tasks are those whose leaves are complete, if and only if nothing spoiled that before. */
  lemma CompleteIffLeavesComplete(p: Snapshot, us: seq<Task>, cap: nat)
    requires Sound(p, cap) && Aggregated(CandidateRule, p.tasks, us)
    ensures DoneAsLeaves(CandidateRule, p.tasks, us) <==> LeafReopenFree(CandidateRule, p.tasks)
  {
    SoundFacts(p, cap);
    ParentsFollowWhenPhased(p.tasks);
    DoneIffLeavesDone(CandidateRule, p.projectId, p.tasks, us);
  }

  // ---- Selection ----

  lemma ReleaseKeepsPhase(policy: Policy, ts: seq<Task>, us: seq<Task>, before: Option<TaskId>, after: Option<TaskId>)
    requires Released(policy, ts, us) && Phased(ts) && OneActive(ts, before)
    requires forall t :: t in ts ==> t.status != InProgress
    requires after.Some? ==> Known(us, after.value)
    ensures Phased(us) && OneActive(us, after) && Repainted(ts, us)
  {
    SameKnown(ts, us);
    forall u | u in us
      ensures Fits(u, HasChild(us, u.id))
    {
      var i :| 0 <= i < |us| && us[i] == u;
      assert ts[i] in ts;
      assert HasChild(us, u.id) == HasChild(ts, ts[i].id);
    }
    forall i | 0 <= i < |us|
      ensures us[i].status != InProgress
    {
      assert ts[i] in ts;
    }
  }

  lemma ReleaseKeepsLeaves(policy: Policy, ts: seq<Task>, us: seq<Task>)
    requires Released(policy, ts, us) && Phased(ts)
    ensures LeavesComplete(ts) ==> us == ts
    ensures LeavesVerified(ts) ==> us == ts
  {
    forall i | 0 <= i < |ts| && us[i] != ts[i]
      ensures ts[i] in ts && IsLeaf(ts, ts[i]) && ts[i].status == Pending
    {
      assert Fits(ts[i], HasChild(ts, ts[i].id));
    }
  }

  /** A running task is picked again. */
  lemma RunningIsPicked(policy: Policy, p: Snapshot, q: Snapshot, r: Selection)
    requires Selects(policy, p, q, r) && OneActive(p.tasks, p.active)
    ensures !TwoInProgress(p.tasks) && !r.SeveralInProgress?
    ensures AnyWith(p.tasks, InProgress) ==> q == p
  {
    assert !TwoInProgress(p.tasks);
    if AnyWith(p.tasks, InProgress) {
      var t :| t in p.tasks && t.id == r.id && t.status == InProgress;
      assert q == p;
    }
  }

  /** The status the selector sets is earned. */
  lemma SelectionEarnsStatus(policy: Policy, p: Snapshot, q: Snapshot, r: Selection)
    requires Selects(policy, p, q, r) && !TwoInProgress(p.tasks) && !AnyWith(p.tasks, InProgress)
    requires Phased(p.tasks) && StatusEarned(p)
    ensures StatusEarned(q)
  {
    assert Released(policy, p.tasks, q.tasks) && q.report == p.report;
    assert q.status == p.status || q.status == ProjectBlocked || LeavesComplete(q.tasks) by {
      hide Released, Phased, StatusEarned, LeavesComplete;
    }
    assert q.status == ProjectVerified ==> p.status == ProjectVerified by { hide Released, Phased, StatusEarned, LeavesComplete; }
    hide Selects, Released, Phased;
    ReleaseKeepsLeaves(policy, p.tasks, q.tasks);
    hide LeavesComplete, LeavesVerified;
  }

  lemma SelectionRepaints(policy: Policy, p: Snapshot, q: Snapshot, r: Selection)
    requires Selects(policy, p, q, r) && !TwoInProgress(p.tasks) && !AnyWith(p.tasks, InProgress)
    requires Phased(p.tasks) && OneActive(p.tasks, p.active)
    ensures Phased(q.tasks) && OneActive(q.tasks, q.active) && Repainted(p.tasks, q.tasks)
    ensures q.projectId == p.projectId && q.sessionCount == p.sessionCount
  {
    KnownAfterRelease(policy, p, q, r);
    ReleaseKeepsPhase(policy, p.tasks, q.tasks, p.active, q.active);
  }

  /** Selection never finds two tasks in progress, and keeps the invariant. */
  lemma SelectionKeepsSound(policy: Policy, p: Snapshot, q: Snapshot, r: Selection, cap: nat)
    requires Sound(p, cap) && Selects(policy, p, q, r)
    ensures Sound(q, cap) && !r.SeveralInProgress?
  {
    SoundFacts(p, cap);
    hide Sound, Phased, StatusEarned, Accounted, Structured, Selects;
    RunningIsPicked(policy, p, q, r);
    if !AnyWith(p.tasks, InProgress) {
      SelectionRepaints(policy, p, q, r);
      SelectionEarnsStatus(policy, p, q, r);
      RepaintKeepsSound(p, q, cap);
    }
  }

  lemma KnownAfterRelease(policy: Policy, p: Snapshot, q: Snapshot, r: Selection)
    requires Selects(policy, p, q, r) && !AnyWith(p.tasks, InProgress) && OneActive(p.tasks, p.active)
    ensures q.active.Some? ==> Known(q.tasks, q.active.value)
  {
    assert !TwoInProgress(p.tasks);
    SameKnown(p.tasks, q.tasks);
  }

  // ---- Decomposition ----

  lemma NoGrandchildren(ts: seq<Task>, p: Task, cs: seq<Task>, c: Task, r: Rank)
    requires Ranked(ts, r) && p in ts && c in cs && c.id !in r
    requires forall d :: d in cs ==> Made(d, p.id, Some(p.id), ChildDepth(p)) && d.id !in r
    ensures !HasChild(ts + cs, c.id)
  {
    forall t | t in ts + cs
      ensures !IsChild(t, c.id)
    {
      if t in ts { assert t.parent.Some? ==> t.parent.value in r; }
    }
  }

  lemma OtherChildren(ts: seq<Task>, k: nat, cs: seq<Task>, id: TaskId)
    requires k < |ts| && id != ts[k].id && (forall d :: d in cs ==> Made(d, ts[k].id, Some(ts[k].id), ChildDepth(ts[k])))
    ensures HasChild(ts + cs, id) == HasChild(ts, id)
  {
    if HasChild(ts, id) {
      var c :| c in ts && IsChild(c, id);
      assert c in ts + cs;
    }
  }

  /** The parent becomes DECOMPOSED and its children are appended, pending. */
  lemma DecompositionKeepsPhase(ts: seq<Task>, k: nat, cs: seq<Task>, r: Rank)
    requires UniqueIds(ts) && Ranked(ts, r) && Phased(ts) && k < |ts| && cs != []
    requires forall c :: c in cs ==> Made(c, ts[k].id, Some(ts[k].id), ChildDepth(ts[k])) && c.id !in r
    ensures Phased(WithStatus(ts, k, Decomposed) + cs)
  {
    var us := ts + cs;
    var vs := WithStatus(ts, k, Decomposed) + cs;
    assert SameShapes(us, vs);
    SameKnown(us, vs);
    assert cs[0] in us && IsChild(cs[0], ts[k].id);
    forall v | v in vs
      ensures Fits(v, HasChild(vs, v.id))
    {
      var i :| 0 <= i < |vs| && vs[i] == v;
      assert HasChild(vs, v.id) == HasChild(us, v.id);
      if i < |ts| {
        assert ts[i] in ts;
        if i != k {
          OtherChildren(ts, k, cs, v.id);
          assert Fits(ts[i], HasChild(ts, ts[i].id));
        }
      } else {
        assert v == cs[i - |ts|];
        assert ts[k] in ts;
        NoGrandchildren(ts, ts[k], cs, v, r);
      }
    }
  }

  lemma DecompositionKeepsActive(ts: seq<Task>, k: nat, cs: seq<Task>, active: Option<TaskId>)
    requires UniqueIds(ts) && OneActive(ts, active) && k < |ts| && ts[k].status == InProgress
    requires forall c :: c in cs ==> c.status == Pending
    ensures OneActive(WithStatus(ts, k, Decomposed) + cs, None)
  {
    var vs := WithStatus(ts, k, Decomposed) + cs;
    forall i | 0 <= i < |vs|
      ensures vs[i].status != InProgress
    {
      if i >= |ts| { assert vs[i] in cs; }
    }
  }

  lemma DecompositionKeepsAccounts(ts: seq<Task>, k: nat, cs: seq<Task>, n: nat, cap: nat)
    requires Accounted(ts, n, cap) && k < |ts| && (forall c :: c in cs ==> c.attempts == 0 && c.sessions == [])
    ensures Accounted(WithStatus(ts, k, Decomposed) + cs, n, cap)
  {
    var us := WithStatus(ts, k, Decomposed);
    SameSessionsSameBag(ts, us);
    SessionBagAppend(us, cs);
    assert ts[k] in ts;
    forall t | t in us + cs
      ensures t.attempts == |t.sessions| <= cap
    {
    }
  }

  lemma DecompositionStructure(project: string, ts: seq<Task>, k: nat, cs: seq<Task>) returns (r: Rank)
    requires Structured(project, ts) && k < |ts| && IdsApart(ts, cs)
    requires NewFamily(cs, ts[k].id, Some(ts[k].id), ChildDepth(ts[k]))
    ensures Structured(project, WithStatus(ts, k, Decomposed) + cs)
    ensures Ranked(ts, r)
    ensures forall c :: c in cs ==> Made(c, ts[k].id, Some(ts[k].id), ChildDepth(ts[k])) && c.id !in r
  {
    var p := ts[k];
    assert p in ts && SameShapes(ts + cs, WithStatus(ts, k, Decomposed) + cs);
    r :| StructuredBy(project, ts, r);
    forall c | c in cs
      ensures c.id !in r
    {
      assert c.id in r ==> Known(ts, c.id);
    }
    assert Ranked(ts, r);
    hide StructuredBy, NewFamily, Made, Ranked, IdsApart, SameShapes, WithStatus;
    FamilyMembers(cs, p.id, Some(p.id), ChildDepth(p));
    var s := FamilyKeepsStructure(project, ts, p, cs, r);
    assert Structured(project, ts + cs);
    hide Structured;
    ShapesDecideStructure(project, ts + cs, WithStatus(ts, k, Decomposed) + cs);
  }

  /** A decomposition of the task in progress keeps the invariant if the ids of the children are not in use. */
  lemma DecompositionKeepsSound(p: Snapshot, q: Snapshot, cap: nat, k: nat, cs: seq<Task>)
    requires Sound(p, cap) && Open(p) && k < |p.tasks| && p.tasks[k].status == InProgress && cs != []
    requires NewFamily(cs, p.tasks[k].id, Some(p.tasks[k].id), ChildDepth(p.tasks[k])) && IdsApart(p.tasks, cs)
    requires q.tasks == WithStatus(p.tasks, k, Decomposed) + cs && q.active == None
    requires q.projectId == p.projectId && q.sessionCount == p.sessionCount && Open(q)
    ensures Sound(q, cap)
  {
    SoundFacts(p, cap);
    UnfinishedLeafMeansOpen(p, cap, p.tasks[k]);
    var r := DecompositionStructure(p.projectId, p.tasks, k, cs);
    DecompositionKeepsPhase(p.tasks, k, cs, r);
    DecompositionKeepsActive(p.tasks, k, cs, p.active);
    DecompositionKeepsAccounts(p.tasks, k, cs, p.sessionCount, cap);
    FinishDecomposition(q, cap);
  }

  lemma FinishDecomposition(q: Snapshot, cap: nat)
    requires Structured(q.projectId, q.tasks) && Phased(q.tasks) && OneActive(q.tasks, q.active)
    requires Accounted(q.tasks, q.sessionCount, cap) && Open(q)
    ensures Sound(q, cap)
  {
    var r :| StructuredBy(q.projectId, q.tasks, r);
    assert SoundBy(q, cap, r);
  }

  // ---- Moves of one task ----

  /** A project all of whose leaves are complete may take any status but VERIFIED. */
  lemma EarnedKeepsSound(p: Snapshot, q: Snapshot, cap: nat)
    requires Sound(p, cap) && LeavesComplete(p.tasks) && q.status != ProjectVerified
    requires q == p.(status := q.status, report := q.report, verificationAttempts := q.verificationAttempts)
    ensures Sound(q, cap)
  {
    var r :| SoundBy(p, cap, r);
    assert SoundBy(q, cap, r);
  }

  /** A project may always go back to an open status. */
  lemma OpeningKeepsSound(p: Snapshot, q: Snapshot, cap: nat)
    requires Sound(p, cap) && Open(q)
    requires q == p.(status := q.status, report := q.report, verificationAttempts := q.verificationAttempts, planVersion := q.planVersion)
    ensures Sound(q, cap)
  {
    var r :| SoundBy(p, cap, r);
    assert SoundBy(q, cap, r);
  }

  /** Verified leaves of a passed project contract. */
  function MarkVerified(ts: seq<Task>, t: Task): Task {
    if IsLeaf(ts, t) && t.status == CandidateComplete then t.(status := Verified, mark := VerdictMark(V.Verified)) else t
  }

  ghost predicate AllMarkedVerified(ts: seq<Task>, us: seq<Task>) {
    |us| == |ts| && forall i :: 0 <= i < |ts| ==> us[i] == MarkVerified(ts, ts[i])
  }

  lemma MarkedFits(ts: seq<Task>, t: Task)
    requires Fits(t, HasChild(ts, t.id)) && (IsLeaf(ts, t) ==> Complete(t.status))
    ensures Fits(MarkVerified(ts, t), HasChild(ts, t.id)) && MarkVerified(ts, t).status != InProgress
    ensures IsLeaf(ts, t) ==> MarkVerified(ts, t).status == Verified
  {
  }

  lemma MarkingKeepsPhase(ts: seq<Task>, us: seq<Task>, active: Option<TaskId>, after: Option<TaskId>)
    requires Phased(ts) && OneActive(ts, active) && AllMarkedVerified(ts, us) && LeavesComplete(ts)
    requires after == active || after == None
    ensures Phased(us) && OneActive(us, after) && Repainted(ts, us) && LeavesVerified(us)
  {
    SameKnown(ts, us);
    forall i | 0 <= i < |us|
      ensures Fits(us[i], HasChild(us, us[i].id)) && us[i].status != InProgress
      ensures IsLeaf(us, us[i]) ==> us[i].status == Verified
    {
      assert ts[i] in ts && Fits(ts[i], HasChild(ts, ts[i].id));
      assert HasChild(us, us[i].id) == HasChild(ts, ts[i].id);
      MarkedFits(ts, ts[i]);
    }
    hide MarkVerified, Fits, Complete;
    var t :| t in ts && IsLeaf(ts, t);
    var u := Twin(us, ts, t);
    assert IsLeaf(us, u);
  }

  lemma MarkingKeepsSound(p: Snapshot, q: Snapshot, cap: nat)
    requires Sound(p, cap) && LeavesComplete(p.tasks) && AllMarkedVerified(p.tasks, q.tasks)
    requires q == p.(tasks := q.tasks, active := q.active, status := ProjectVerified, report := q.report,
                     verificationAttempts := q.verificationAttempts)
    requires (q.active == p.active || q.active == None) && q.report.Some? && q.report.value.verdict == V.Verified
    ensures Sound(q, cap)
  {
    SoundFacts(p, cap);
    MarkingKeepsPhase(p.tasks, q.tasks, p.active, q.active);
    RepaintKeepsSound(p, q, cap);
  }

  /** No draft takes the key of a task. */
  predicate KeysFresh(ts: seq<Task>, drafts: seq<Draft>) {
    forall i, j :: 0 <= i < |ts| && 0 <= j < |drafts| ==> ts[i].key != drafts[j].key
  }

  /** With unique keys before, the keys stay unique exactly when the children bring new ones. */
  lemma FreshKeysStayUnique(ts: seq<Task>, k: nat, p: Task, drafts: seq<Draft>, clock: nat -> int)
    requires UniqueKeys(ts) && UniqueDraftKeys(drafts) && k < |ts|
    ensures UniqueKeys(WithStatus(ts, k, Decomposed) + ChildTasks(p, drafts, clock)) <==> KeysFresh(ts, drafts)
  {
    var us := WithStatus(ts, k, Decomposed) + ChildTasks(p, drafts, clock);
    assert |us| == |ts| + |drafts|;
    forall i | 0 <= i < |us|
      ensures us[i].key == if i < |ts| then ts[i].key else drafts[i - |ts|].key
    {
    }
    if UniqueKeys(us) {
      forall i, j | 0 <= i < |ts| && 0 <= j < |drafts|
        ensures ts[i].key != drafts[j].key
      {
        var l := |ts| + j;
        assert us[i].key != us[l].key;
      }
    }
  }

  /** Two id-unique lists joined are id-unique exactly if they share no id. */
  lemma JoinedIds(ts: seq<Task>, cs: seq<Task>)
    requires UniqueIds(ts) && UniqueIds(cs)
    ensures UniqueIds(ts + cs) <==> forall i, j :: 0 <= i < |ts| && 0 <= j < |cs| ==> ts[i].id != cs[j].id
  {
    var us := ts + cs;
    if UniqueIds(us) {
      forall i, j | 0 <= i < |ts| && 0 <= j < |cs|
        ensures ts[i].id != cs[j].id
      {
        var l := |ts| + j;
        assert us[i] == ts[i] && us[l] == cs[j];
      }
    }
  }

  lemma ChildIdsDiffer(p: Task, drafts: seq<Draft>, clock: nat -> int)
    requires UniqueDraftKeys(drafts)
    ensures UniqueIds(ChildTasks(p, drafts, clock))
  {
    forall i, j | 0 <= i < j < |drafts|
      ensures ChildTasks(p, drafts, clock)[i].id != ChildTasks(p, drafts, clock)[j].id
    {
      QualifiedInjective(p.id, drafts[i].key, drafts[j].key);
    }
  }

  /** With unique ids before, the ids stay unique exactly when the children's ids are not in use. */
  lemma FreshIdsStayUnique(ts: seq<Task>, k: nat, p: Task, drafts: seq<Draft>, clock: nat -> int)
    requires UniqueIds(ts) && UniqueDraftKeys(drafts) && k < |ts|
    ensures UniqueIds(WithStatus(ts, k, Decomposed) + ChildTasks(p, drafts, clock)) <==> IdsFresh(ts, p, drafts)
  {
    var vs, cs := WithStatus(ts, k, Decomposed), ChildTasks(p, drafts, clock);
    assert forall i :: 0 <= i < |ts| ==> vs[i].id == ts[i].id;
    assert forall j :: 0 <= j < |cs| ==> cs[j].id == Qualified(p.id, drafts[j].key);
    ChildIdsDiffer(p, drafts, clock);
    assert UniqueIds(vs);
    hide UniqueIds, ChildTasks, WithStatus, Qualified;
    JoinedIds(vs, cs);
  }

  /** Keys without colons make the children's ids fresh, whatever has happened before. */
  lemma ColonFreeIdsAreFresh(project: string, ts: seq<Task>, p: Task, drafts: seq<Draft>)
    requires Structured(project, ts) && ColonFreeTasks(ts) && p in ts && !HasChild(ts, p.id) && ColonFreeKeys(drafts)
    ensures IdsFresh(ts, p, drafts)
  {
    forall i, j | 0 <= i < |ts| && 0 <= j < |drafts|
      ensures ts[i].id != Qualified(p.id, drafts[j].key)
    {
      assert ColonFree(drafts[j].key);
      ChildIdsAreFresh(project, ts, p, drafts[j].key);
      assert ts[i] in ts;
    }
  }

  // ---- Clashing ids ----

  /** Drafts without dependencies need no more than the checks on each of them. */
  lemma IndependentDraftsAreValid(drafts: seq<Draft>, parent: Option<string>, min: int, max: int)
    requires WellFormed(drafts, parent, min, max) && forall d :: d in drafts ==> d.dependsOn == []
    ensures Valid(drafts, parent, min, max)
  {
    var g := KeyGraph(drafts);
    forall i | 0 <= i < |drafts|
      ensures A.Next(g, Keys(drafts)[i]) == []
    {
      KeyGraphAt(drafts, i);
      assert drafts[i] in drafts;
    }
    assert A.TopologicalOrder(g, Keys(drafts));
  }

  const OUTER := Draft("a", "all of it", ["done"], [])
  const INNER := Draft("b", "half of it", ["done"], [])
  const COLON := Draft("b:c", "the other half", ["done"], [])
  const INMOST := Draft("c", "a quarter of it", ["done"], [])

  lemma ClashingDraftsAreValid()
    ensures Valid([OUTER], None, 1, 1) && Valid([INNER, COLON], Some(OUTER.objective), 2, 2)
    ensures Valid([INMOST], Some(INNER.objective), 1, 1)
  {
    assert Strip(OUTER.objective) == OUTER.objective && Strip(INNER.objective) == INNER.objective;
    assert Strip(COLON.objective) == COLON.objective && Strip(INMOST.objective) == INMOST.objective;
    IndependentDraftsAreValid([OUTER], None, 1, 1);
    IndependentDraftsAreValid([INNER, COLON], Some(OUTER.objective), 2, 2);
    IndependentDraftsAreValid([INMOST], Some(INNER.objective), 1, 1);
  }

  /** The task list after the plan and the first decomposition. */
  function BeforeClash(project: string, clock: nat -> int): seq<Task> {
    var plan := PlanTasks(project, [OUTER], clock);
    WithStatus(plan, 0, Decomposed) + ChildTasks(plan[0], [INNER, COLON], clock)
  }

  lemma ClashIsNear(project: string, clock: nat -> int)
    ensures var ts := BeforeClash(project, clock);
      && |ts| == 3 && ts[0].key == "a" && ts[1].key == "b" && ts[2].key == "b:c"
      && UniqueIds(ts) && Qualified(ts[1].id, "c") == ts[2].id
  {
    var ts := BeforeClash(project, clock);
    var top := Qualified(project, "a");
    assert ts[0].id == top && ts[1].id == Qualified(top, "b") && ts[2].id == Qualified(top, "b:c");
    assert |ts[0].id| < |ts[1].id| < |ts[2].id|;
  }

  /** Three lists the validators accept; the child of the last takes an id that is in use, and no key is repeated. */
  lemma ColonKeysCollide(project: string, clock: nat -> int)
    ensures Valid([OUTER], None, 1, 1) && Valid([INNER, COLON], Some(OUTER.objective), 2, 2)
    ensures Valid([INMOST], Some(INNER.objective), 1, 1)
    ensures var ts := BeforeClash(project, clock);
      var us := WithStatus(ts, 1, Decomposed) + ChildTasks(ts[1], [INMOST], clock);
      UniqueIds(ts) && UniqueKeys(us) && !IdsFresh(ts, ts[1], [INMOST]) && !UniqueIds(us)
  {
    ClashingDraftsAreValid();
    ClashIsNear(project, clock);
    var ts := BeforeClash(project, clock);
    hide BeforeClash, Qualified, UniqueIds, Valid;
    assert ts[2].id == Qualified(ts[1].id, [INMOST][0].key);
    FreshIdsStayUnique(ts, 1, ts[1], [INMOST], clock);
  }
}
