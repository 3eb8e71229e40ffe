/**
 The project run loop: planning, selection, sessions, decomposition, verification and reopening.
 Whatever the model, the tools and the clock do is an input, the `World`.
 */
module Orchestrator {
  import opened Common
  import opened Control
  import opened Schema
  import opened Transitions
  import opened Validator
  import opened TaskGraph
  import opened Aggregation
  import opened Selector
  import opened Invariant
  import opened Steps
  import opened Progress
  import opened Completion
  import V = Verdict

  // ---- Configuration ----

  datatype PlanningMode = PlanningDisabled | StaticPlan | Adaptive | AdaptiveSearch

  datatype Scope = ProjectScope | TaskScope(taskId: Option<TaskId>, taskKey: Option<string>)

  datatype Contract = Contract(checks: seq<V.Check>, scope: Scope)

  datatype Config = Config(
    mode: PlanningMode, boundedSearch: bool, minTasks: nat, maxTasks: nat,
    minChildren: nat, maxChildren: nat, maxDepth: nat,
    maxProjectSessions: nat, maxSessionsPerTask: nat, attemptsBeforeDecomposition: nat, maxNoProgressSessions: nat,
    policy: Policy, maxTaskReopens: nat, maxProjectVerificationAttempts: nat,
    contractMode: bool, requireProjectContract: bool, finalCommand: bool)

  // ---- The world ----

  datatype Recovery = NoValidCandidate | MarkBlocked | RetryWithGuidance | DecomposeInto(drafts: seq<Draft>)

  /** What one session leaves behind. */
  datatype SessionOutcome = SessionOutcome(
    terminal: Option<TerminalSignal>, noProgress: bool, candidate: bool, recovery: Recovery, decomposition: seq<Draft>)

  /** All inputs of a run; the number is the session or the point in time. */
  datatype World = World(
    plan: seq<Draft>, session: nat -> SessionOutcome, repair: nat -> seq<Draft>, evidence: nat -> V.Evidence,
    pastDeadline: nat -> bool, finalCommandPasses: nat -> bool, clock: nat -> nat -> int)

  predicate KeyOf(drafts: seq<Draft>, key: string) {
    exists i :: 0 <= i < |drafts| && drafts[i].key == key
  }

  predicate OfferedIn(o: SessionOutcome, key: string) {
    KeyOf(o.decomposition, key) || (o.recovery.DecomposeInto? && KeyOf(o.recovery.drafts, key))
  }

  /** Some draft of the world has this key. */
  ghost predicate Offered(w: World, key: string) {
    || KeyOf(w.plan, key)
    || (exists n: nat :: OfferedIn(w.session(n), key))
    || (exists n: nat :: KeyOf(w.repair(n), key))
  }

  ghost predicate ColonFreeWorld(w: World) {
    forall key :: Offered(w, key) ==> ColonFree(key)
  }

  /**
   The errors that end a run; the in-memory project is then lost and the last save counts. The last two are no errors of
   the source: two tasks have got the same id, or a repair left a running task that is not the active one, and the run is
   not followed any further.
   */
  datatype Cause =
    | IllegalTransition | SaveRefused | PlanFailed | DecompositionFailed | SelectorFailed(selection: Selection)
    | IdClash | ActiveLost

  datatype Outcome = Fine | Raised(cause: Cause)

  // ---- What a session means for its task ----

  datatype NextStep = Stay | ToStatus(status: TaskStatus) | ToChildren(drafts: seq<Draft>) | GiveUp

  predicate IsAdaptive(c: Config) {
    c.mode == Adaptive || c.mode == AdaptiveSearch
  }

  ghost predicate ValidChildren(c: Config, t: Task, drafts: seq<Draft>) {
    t.depth < c.maxDepth && Valid(drafts, Some(t.objective), c.minChildren, c.maxChildren)
  }

  ghost function DecomposerStep(c: Config, t: Task, drafts: seq<Draft>): NextStep {
    if ValidChildren(c, t, drafts) then ToChildren(drafts) else GiveUp
  }

  ghost function DecompositionStep(c: Config, t: Task, forced: bool, o: SessionOutcome): NextStep {
    if c.mode == StaticPlan then ToStatus(Blocked)
    else if !forced && c.mode == AdaptiveSearch && c.boundedSearch then
      match o.recovery
      case NoValidCandidate => GiveUp
      case MarkBlocked => ToStatus(Blocked)
      case RetryWithGuidance => ToStatus(Ready)
      case DecomposeInto(drafts) => DecomposerStep(c, t, drafts)
    else DecomposerStep(c, t, o.decomposition)
  }

  predicate NoProgressRequired(c: Config, t: Task) {
    IsAdaptive(c) && t.depth < c.maxDepth && t.noProgress >= c.maxNoProgressSessions
  }

  function WithProgress(t: Task, noProgress: bool): Task {
    t.(noProgress := if noProgress then t.noProgress + 1 else 0)
  }

  /** The decision table of a finished session; `t` already counts the session. */
  ghost function SessionStep(c: Config, t: Task, o: SessionOutcome): NextStep {
    match o.terminal
    case None =>
      if o.candidate then ToStatus(CandidateComplete)
      else if NoProgressRequired(c, t) then DecompositionStep(c, t, true, o)
      else if IsAdaptive(c) && t.attempts >= c.attemptsBeforeDecomposition then DecompositionStep(c, t, false, o)
      else Stay
    case Some(CompletionRequest) => ToStatus(CandidateComplete)
    case Some(Blocker(recommended)) =>
      if recommended && IsAdaptive(c) then DecompositionStep(c, t, false, o) else ToStatus(Blocked)
    case Some(DecompositionRequest) =>
      if IsAdaptive(c) then DecompositionStep(c, t, false, o) else ToStatus(Blocked)
  }

  /** `q` is `p` after task `k`, now `t`, took the step. */
  ghost predicate Took(p: Snapshot, q: Snapshot, k: nat, t: Task, step: NextStep, clock: nat -> int)
    requires k < |p.tasks|
  {
    match step
    case Stay => q == p.(tasks := p.tasks[k := t])
    case ToStatus(s) =>
      q == p.(tasks := p.tasks[k := t.(status := s)], active := ActiveAfter(p.active, t.id, s))
    case ToChildren(drafts) =>
      q == p.(tasks := WithStatus(p.tasks[k := t], k, Decomposed) + ChildTasks(t, drafts, clock),
              active := ActiveAfter(p.active, t.id, Decomposed), planVersion := q.planVersion)
      && q.planVersion == p.planVersion + 1
    case GiveUp => q == p.(tasks := p.tasks[k := t])
  }

  /** Writing the task first and stepping then is one step. */
  lemma TookAfterUpdate(p: Snapshot, q: Snapshot, k: nat, t: Task, step: NextStep, clock: nat -> int)
    requires k < |p.tasks| && Took(p.(tasks := p.tasks[k := t]), q, k, t, step, clock)
    ensures Took(p, q, k, t, step, clock)
  {
    var ts := p.tasks;
    assert ts[k := t][k := t] == ts[k := t];
    if step.ToStatus? { assert ts[k := t][k := t.(status := step.status)] == ts[k := t.(status := step.status)]; }
  }

  /** Do the children, if any, get ids that are not in use? */
  predicate FreshStep(ts: seq<Task>, t: Task, step: NextStep) {
    step.ToChildren? ==> IdsFresh(ts, t, step.drafts)
  }

  function StepOutcome(ts: seq<Task>, t: Task, step: NextStep): Outcome {
    if step.GiveUp? then Raised(DecompositionFailed)
    else if FreshStep(ts, t, step) then Fine
    else Raised(IdClash)
  }

  /**
   What a session reports and what that makes of its task `was`, which is then `now`; `children` were appended. A task is
   stuck after too many sessions without progress, and tired after too many sessions at all.
   */
  ghost predicate Reported(c: Config, was: Task, o: SessionOutcome, now: Task, children: int, r: Outcome) {
    var adaptive := c.mode == Adaptive || c.mode == AdaptiveSearch;
    var searching := c.mode == AdaptiveSearch && c.boundedSearch;
    var idle := if o.noProgress then was.noProgress + 1 else 0;
    var silent := o.terminal.None? && !o.candidate;
    var stuck := adaptive && silent && was.depth < c.maxDepth && idle >= c.maxNoProgressSessions;
    var tired := adaptive && silent && was.attempts >= c.attemptsBeforeDecomposition;
    var asked := adaptive && (o.terminal == Some(Blocker(true)) || o.terminal == Some(DecompositionRequest));
    && now.id == was.id && now.attempts == was.attempts && now.sessions == was.sessions && now.noProgress == idle
    && (o.terminal == Some(CompletionRequest) || (o.terminal.None? && o.candidate) ==>
          r == Fine && now.status == CandidateComplete && children == 0)
    && (o.terminal == Some(Blocker(false)) || (o.terminal in {Some(Blocker(true)), Some(DecompositionRequest)} && !adaptive) ==>
          r == Fine && now.status == Blocked && children == 0)
    && (silent && !stuck && !tired ==> r == Fine && now.status == InProgress && children == 0)
    && (stuck || (!searching && (tired || asked)) ==> SplitInto(o.decomposition, now, children, r))
    && (searching && !stuck && (tired || asked) ==>
          match o.recovery
          case NoValidCandidate => r == Raised(DecompositionFailed) && now.status == InProgress && children == 0
          case MarkBlocked => r == Fine && now.status == Blocked && children == 0
          case RetryWithGuidance => r == Fine && now.status == Ready && children == 0
          case DecomposeInto(drafts) => SplitInto(drafts, now, children, r))
  }

  /** One child for each draft, or none and the error. */
  ghost predicate SplitInto(drafts: seq<Draft>, now: Task, children: int, r: Outcome) {
    if r == Raised(DecompositionFailed) then now.status == InProgress && children == 0
    else (r == Fine || r == Raised(IdClash)) && now.status == Decomposed && children == |drafts|
  }

  /** The decision table means just that. */
  lemma StepReports(c: Config, p: Snapshot, q: Snapshot, k: nat, was: Task, o: SessionOutcome, clock: nat -> int)
    requires k < |p.tasks| && was.status == InProgress
    requires var t := WithProgress(was, o.noProgress); Took(p, q, k, t, SessionStep(c, t, o), clock)
    ensures var t := WithProgress(was, o.noProgress);
      k < |q.tasks| && Reported(c, was, o, q.tasks[k], |q.tasks| - |p.tasks|, StepOutcome(p.tasks, t, SessionStep(c, t, o)))
  {
    hide IdsFresh, ValidChildren;
  }

  /** A completion request completes the task of the session. */
  lemma RequestCompletes(c: Config, p: Snapshot, q: Snapshot, k: nat, o: SessionOutcome, clock: nat -> int)
    requires k < |p.tasks| && o.terminal == Some(CompletionRequest)
    requires var t := WithProgress(p.tasks[k], o.noProgress); Took(p, q, k, t, SessionStep(c, t, o), clock)
    ensures CompletedAt(p.tasks, q.tasks, k)
    ensures var t := WithProgress(p.tasks[k], o.noProgress); StepOutcome(p.tasks, t, SessionStep(c, t, o)) == Fine
  {
  }

  lemma StepOutcomeMeans(ts: seq<Task>, t: Task, step: NextStep)
    ensures StepOutcome(ts, t, step) == Raised(DecompositionFailed) <==> step.GiveUp?
    ensures StepOutcome(ts, t, step) == Fine <==> !step.GiveUp? && FreshStep(ts, t, step)
    ensures StepOutcome(ts, t, step) == Raised(IdClash) <==> !step.GiveUp? && !FreshStep(ts, t, step)
  {
  }

  lemma ProgressKeepsTask(ts: seq<Task>, k: nat, noProgress: bool)
    requires k < |ts|
    ensures var t := WithProgress(ts[k], noProgress);
      Retasked(ts, k, t) && SameShape(ts[k], t) && t.status == ts[k].status && t.mark == ts[k].mark && t.key == ts[k].key && t.id == ts[k].id
  {
  }

  lemma RunningIsNoParent()
    ensures !ParentStatus(InProgress)
  {
  }

  /** Only ids decide. */
  lemma SameFreshStep(ts: seq<Task>, k: nat, t: Task, step: NextStep)
    requires k < |ts| && t.id == ts[k].id
    ensures FreshStep(ts[k := t], t, step) <==> FreshStep(ts, t, step)
  {
    if step.ToChildren? {
      var us := ts[k := t];
      assert forall i :: 0 <= i < |ts| ==> us[i].id == ts[i].id;
    }
  }

  /** When the engine gives a task up: no recovery candidate is valid, or the children are not. */
  lemma GiveUpMeans(c: Config, t: Task, forced: bool, o: SessionOutcome)
    ensures DecompositionStep(c, t, forced, o).GiveUp? <==>
            && c.mode != StaticPlan
            && if !forced && c.mode == AdaptiveSearch && c.boundedSearch
               then o.recovery.NoValidCandidate? || (o.recovery.DecomposeInto? && !ValidChildren(c, t, o.recovery.drafts))
               else !ValidChildren(c, t, o.decomposition)
  {
  }

  /** Some session outcome makes the engine give the task up, or the drafts for its repair are not valid children. */
  ghost predicate GivenUp(c: Config, w: World, t: Task) {
    || (exists n: nat :: SessionStep(c, t, w.session(n)).GiveUp?)
    || (NoProgressRequired(c, t) && exists n: nat :: !ValidChildren(c, t, w.repair(n)))
  }

  // ---- Task verification ----

  predicate Covers(c: Option<Contract>, t: Task) {
    c.Some? && c.value.scope.TaskScope? && (c.value.scope.taskId == Some(t.id) || c.value.scope.taskKey == Some(t.key))
  }

  predicate IsProjectContract(c: Option<Contract>) {
    c.Some? && c.value.scope.ProjectScope?
  }

  predicate AwaitsVerification(c: Option<Contract>, t: Task) {
    Covers(c, t) && (t.status == CandidateComplete || (t.status == Blocked && t.mark == VerdictMark(V.InfrastructureError)))
  }

  function ReopenedStatus(c: Config, reopens: nat): TaskStatus {
    if reopens > c.maxTaskReopens then Blocked else Ready
  }

  function Reopen(c: Config, t: Task): Task {
    t.(reopens := t.reopens + 1, status := ReopenedStatus(c, t.reopens + 1))
  }

  /** A task after its verification gave this verdict. */
  function Judged(c: Config, t: Task, v: V.Verdict): Task {
    var u := t.(verificationAttempts := t.verificationAttempts + 1, mark := VerdictMark(v));
    match v
    case Verified => u.(status := Verified)
    case Partial | Reopened => Reopen(c, u)
    case InfrastructureError | Inconclusive | ContractInvalid => u.(status := Blocked)
  }

  /** What a verdict makes of its task: verified, taken up again unless that happened too often, or blocked. */
  ghost predicate Sentenced(c: Config, was: Task, now: Task, v: V.Verdict) {
    && now.id == was.id && now.mark == VerdictMark(v) && now.verificationAttempts == was.verificationAttempts + 1
    && (v == V.Verified ==> now.status == TaskStatus.Verified && now.reopens == was.reopens)
    && (v == V.Partial || v == V.Reopened ==>
          now.reopens == was.reopens + 1 && now.status == if now.reopens > c.maxTaskReopens then Blocked else Ready)
    && (v == V.InfrastructureError || v == V.Inconclusive || v == V.ContractInvalid ==>
          now.status == Blocked && now.reopens == was.reopens)
  }

  lemma JudgedIsSentenced(c: Config, t: Task, v: V.Verdict)
    ensures Sentenced(c, t, Judged(c, t, v), v)
  {
  }

  lemma JudgedWhileWaiting(c: Config, t: Task, v: V.Verdict)
    ensures Judged(c, t.(status := VerificationPending), v) == Judged(c, t, v)
  {
  }

  // ---- The steps keep the invariant ----

  /** What the configuration schema guarantees. */
  predicate ValidConfig(c: Config) {
    1 <= c.minChildren && 1 <= c.maxSessionsPerTask
  }

  ghost predicate SafeStep(c: Config, t: Task, step: NextStep) {
    match step
    case Stay => true
    case ToStatus(s) => s == Ready || s == Blocked || s == CandidateComplete
    case ToChildren(drafts) => ValidChildren(c, t, drafts)
    case GiveUp => false
  }

  lemma SessionStepIsSafe(c: Config, t: Task, o: SessionOutcome)
    ensures SessionStep(c, t, o).GiveUp? || SafeStep(c, t, SessionStep(c, t, o))
  {
  }

  /** An accepted decomposition keeps the invariant if and only if the ids of the children are not in use. */
  lemma ChildrenKeepSound(c: Config, p: Snapshot, q: Snapshot, k: nat, t: Task, drafts: seq<Draft>, clock: nat -> int)
    requires ValidConfig(c) && Sound(p, c.maxSessionsPerTask) && Open(p) && Open(q)
    requires k < |p.tasks| && p.tasks[k] == t && t.status == InProgress && ValidChildren(c, t, drafts)
    requires q.tasks == WithStatus(p.tasks, k, Decomposed) + ChildTasks(t, drafts, clock) && q.active == None
    requires q.projectId == p.projectId && q.sessionCount == p.sessionCount
    ensures Sound(q, c.maxSessionsPerTask) <==> IdsFresh(p.tasks, t, drafts)
    ensures UniqueIds(q.tasks) <==> IdsFresh(p.tasks, t, drafts)
  {
    AcceptedDraftsMakeFamily(t.id, Some(t.id), ChildDepth(t), drafts, Some(t.objective), c.minChildren, c.maxChildren, clock);
    assert |drafts| >= c.minChildren && UniqueDraftKeys(drafts);
    hide Sound, ValidChildren, NewFamily, ChildTasks, UniqueDraftKeys, IdsFresh, WithStatus;
    SoundFacts(p, c.maxSessionsPerTask);
    FreshIdsAreApart(p.tasks, t, drafts, clock);
    FreshIdsStayUnique(p.tasks, k, t, drafts, clock);
    if IdsFresh(p.tasks, t, drafts) {
      DecompositionKeepsSound(p, q, c.maxSessionsPerTask, k, ChildTasks(t, drafts, clock));
    }
    if Sound(q, c.maxSessionsPerTask) { SoundFacts(q, c.maxSessionsPerTask); }
  }

  /** Whatever a session leads to, the project stays open, and sound exactly unless two tasks got the same id. */
  lemma TookKeepsSound(c: Config, p: Snapshot, q: Snapshot, k: nat, t: Task, step: NextStep, clock: nat -> int)
    requires ValidConfig(c) && Sound(p, c.maxSessionsPerTask) && Open(p)
    requires k < |p.tasks| && Retasked(p.tasks, k, t) && t.status == InProgress && p.tasks[k].status == InProgress
    requires t.mark == p.tasks[k].mark
    requires SafeStep(c, t, step) && Took(p, q, k, t, step, clock)
    ensures Open(q) && (Sound(q, c.maxSessionsPerTask) <==> FreshStep(p.tasks, t, step))
    ensures UniqueIds(q.tasks) <==> FreshStep(p.tasks, t, step)
  {
    SoundFacts(p, c.maxSessionsPerTask);
    UnfinishedLeafMeansOpen(p, c.maxSessionsPerTask, p.tasks[k]);
    var cap := c.maxSessionsPerTask;
    match step {
      case Stay =>
        RetaskKeepsSound(p, q, cap, k, t);
        SoundFacts(q, cap);
      case ToStatus(s) =>
        RetaskKeepsSound(p, q, cap, k, t.(status := s));
        SoundFacts(q, cap);
      case ToChildren(drafts) =>
        TookChildren(c, p, q, k, t, drafts, clock);
    }
  }

  lemma TookChildren(c: Config, p: Snapshot, q: Snapshot, k: nat, t: Task, drafts: seq<Draft>, clock: nat -> int)
    requires ValidConfig(c) && Sound(p, c.maxSessionsPerTask) && Open(p)
    requires k < |p.tasks| && Retasked(p.tasks, k, t) && t.status == InProgress && p.tasks[k].status == InProgress
    requires t.mark == p.tasks[k].mark
    requires ValidChildren(c, t, drafts) && Took(p, q, k, t, ToChildren(drafts), clock)
    ensures Sound(q, c.maxSessionsPerTask) <==> FreshStep(p.tasks, t, ToChildren(drafts))
    ensures UniqueIds(q.tasks) <==> FreshStep(p.tasks, t, ToChildren(drafts))
  {
    var mid := p.(tasks := p.tasks[k := t]);
    SoundFacts(p, c.maxSessionsPerTask);
    UnfinishedLeafMeansOpen(p, c.maxSessionsPerTask, p.tasks[k]);
    RetaskKeepsSound(p, mid, c.maxSessionsPerTask, k, t);
    SameFreshStep(p.tasks, k, t, ToChildren(drafts));
    ChildrenKeepSound(c, mid, q, k, t, drafts, clock);
  }

  lemma JudgedKeepsSound(c: Config, p: Snapshot, q: Snapshot, k: nat, v: V.Verdict)
    requires Sound(p, c.maxSessionsPerTask) && Open(p) && k < |p.tasks| && IsLeaf(p.tasks, p.tasks[k])
    requires q == p.(tasks := p.tasks[k := Judged(c, p.tasks[k], v)],
                     active := if p.active == Some(p.tasks[k].id) then None else p.active)
    ensures Sound(q, c.maxSessionsPerTask)
  {
    RetaskKeepsSound(p, q, c.maxSessionsPerTask, k, Judged(c, p.tasks[k], v));
  }

  // ---- Project verification ----

  /** The complete leaf that comes last in the list: the task a failed project contract is mapped to. */
  ghost predicate LastCompleteLeaf(ts: seq<Task>, k: nat) {
    && k < |ts| && IsLeaf(ts, ts[k]) && Complete(ts[k].status)
    && forall j :: k < j < |ts| ==> !(IsLeaf(ts, ts[j]) && Complete(ts[j].status))
  }

  function Cleared(active: Option<TaskId>, id: TaskId): Option<TaskId> {
    if active == Some(id) then None else active
  }

  ghost predicate LastReopened(c: Config, p: Snapshot, q: Snapshot) {
    exists k: nat :: LastCompleteLeaf(p.tasks, k)
      && q.tasks == p.tasks[k := Reopen(c, p.tasks[k])] && q.active == Cleared(p.active, p.tasks[k].id)
  }

  /** The project after its contract was checked with verdict `v`. */
  ghost predicate Checked(c: Config, p: Snapshot, q: Snapshot, v: V.Verdict) {
    && q == p.(tasks := q.tasks, active := q.active, status := q.status, report := q.report,
               verificationAttempts := p.verificationAttempts + 1)
    && q.report.Some? && q.report.value.verdict == v
    && match v
       case Verified =>
         q.status == ProjectVerified && AllMarkedVerified(p.tasks, q.tasks) && (q.active == p.active || q.active == None)
       case Partial => q.status == PartiallyVerified && LastReopened(c, p, q)
       case Reopened => q.status == Active && LastReopened(c, p, q)
       case InfrastructureError => q.status == ProjectVerificationPending && q.tasks == p.tasks && q.active == p.active
       case Inconclusive | ContractInvalid => q.status == VerificationInconclusive && q.tasks == p.tasks && q.active == p.active
  }

  /** One more reopening is counted; the task is ready again, or blocked if that were too many. */
  ghost predicate ReopenedAs(c: Config, was: Task, now: Task) {
    now.id == was.id && now.reopens == was.reopens + 1
    && now.status == if was.reopens + 1 > c.maxTaskReopens then Blocked else Ready
  }

  /** What each verdict makes of the project and of the task it is mapped to. */
  lemma CheckedMeans(c: Config, p: Snapshot, q: Snapshot, v: V.Verdict)
    requires Checked(c, p, q, v)
    ensures q.verificationAttempts == p.verificationAttempts + 1 && q.report.Some? && q.report.value.verdict == v
    ensures v == V.Verified ==> q.status == ProjectVerified && |q.tasks| == |p.tasks|
    ensures v == V.Verified ==>
              forall i :: 0 <= i < |p.tasks| && IsLeaf(p.tasks, p.tasks[i]) && p.tasks[i].status == CandidateComplete ==>
                q.tasks[i].status == TaskStatus.Verified
    ensures v == V.Partial ==> q.status == PartiallyVerified
    ensures v == V.Reopened ==> q.status == Active
    ensures v == V.Partial || v == V.Reopened ==>
              exists k: nat :: LastCompleteLeaf(p.tasks, k) && |q.tasks| == |p.tasks| && ReopenedAs(c, p.tasks[k], q.tasks[k])
    ensures v == V.InfrastructureError ==> q.status == ProjectVerificationPending && q.tasks == p.tasks
    ensures v == V.Inconclusive || v == V.ContractInvalid ==> q.status == VerificationInconclusive && q.tasks == p.tasks
  {
    if v == V.Partial || v == V.Reopened {
      var k: nat :| LastCompleteLeaf(p.tasks, k)
        && q.tasks == p.tasks[k := Reopen(c, p.tasks[k])] && q.active == Cleared(p.active, p.tasks[k].id);
      assert ReopenedAs(c, p.tasks[k], q.tasks[k]);
    }
  }

  predicate WillCheck(c: Config, contract: Option<Contract>, p: Snapshot) {
    IsProjectContract(contract) && p.verificationAttempts < c.maxProjectVerificationAttempts
  }

  ghost predicate Finalized(c: Config, contract: Option<Contract>, p: Snapshot, q: Snapshot, e: V.Evidence) {
    if WillCheck(c, contract, p) then Checked(c, p, q, V.VerdictFor(contract.value.checks, e))
    else q == p.(status := if IsProjectContract(contract) || c.requireProjectContract
                           then VerificationInconclusive else ProjectCandidateComplete)
  }

  lemma ReopenKeepsSound(c: Config, p: Snapshot, q: Snapshot, k: nat)
    requires Sound(p, c.maxSessionsPerTask) && Open(p) && LastCompleteLeaf(p.tasks, k)
    requires q == p.(tasks := p.tasks[k := Reopen(c, p.tasks[k])], active := Cleared(p.active, p.tasks[k].id))
    ensures Sound(q, c.maxSessionsPerTask)
  {
    RetaskKeepsSound(p, q, c.maxSessionsPerTask, k, Reopen(c, p.tasks[k]));
  }

  lemma ReopeningKeepsSound(c: Config, p: Snapshot, q: Snapshot)
    requires Sound(p, c.maxSessionsPerTask) && LastReopened(c, p, q) && Open(q)
    requires q == p.(tasks := q.tasks, active := q.active, status := q.status, report := q.report,
                     verificationAttempts := q.verificationAttempts)
    ensures Sound(q, c.maxSessionsPerTask)
  {
    var k: nat :| LastCompleteLeaf(p.tasks, k)
      && q.tasks == p.tasks[k := Reopen(c, p.tasks[k])] && q.active == Cleared(p.active, p.tasks[k].id);
    var mid := p.(status := q.status, report := q.report, verificationAttempts := q.verificationAttempts);
    OpeningKeepsSound(p, mid, c.maxSessionsPerTask);
    ReopenKeepsSound(c, mid, q, k);
  }

  /** Whatever the verdict, the project stays sound: VERIFICATION_PENDING and VERIFIED are earned. */
  lemma FinalizedKeepsSound(c: Config, contract: Option<Contract>, p: Snapshot, q: Snapshot, e: V.Evidence)
    requires Sound(p, c.maxSessionsPerTask) && LeavesComplete(p.tasks) && Finalized(c, contract, p, q, e)
    ensures q.status != SessionLimitReached
    ensures Sound(q, c.maxSessionsPerTask)
  {
    var cap := c.maxSessionsPerTask;
    if !WillCheck(c, contract, p) {
      EarnedKeepsSound(p, q, cap);
    } else {
      match V.VerdictFor(contract.value.checks, e) {
        case Verified => MarkingKeepsSound(p, q, cap);
        case Partial | Reopened => ReopeningKeepsSound(c, p, q);
        case InfrastructureError => EarnedKeepsSound(p, q, cap);
        case Inconclusive | ContractInvalid => OpeningKeepsSound(p, q, cap);
      }
    }
  }

  /** A project becomes VERIFIED by a check exactly when the evidence meets every requirement of the contract. */
  lemma ProjectVerifiedIffContractMet(c: Config, contract: Option<Contract>, p: Snapshot, q: Snapshot, e: V.Evidence)
    requires WillCheck(c, contract, p) && Finalized(c, contract, p, q, e) && V.UniqueIds(contract.value.checks)
    ensures q.status == ProjectVerified <==>
            e.Checked? && V.ContractMet(contract.value.checks, e.baseline, e.candidate, e.violations)
  {
    if e.Checked? { V.VerifiedIffContractMet(contract.value.checks, e.baseline, e.candidate, e.violations); }
  }

  /** A project goes back to work only with an unfinished leaf. */
  lemma FinalizedHasWork(c: Config, contract: Option<Contract>, p: Snapshot, q: Snapshot, e: V.Evidence)
    requires Finalized(c, contract, p, q, e) && q.status == Active && UniqueIds(p.tasks)
    ensures !LeavesComplete(q.tasks)
  {
    var k: nat :| LastCompleteLeaf(p.tasks, k)
      && q.tasks == p.tasks[k := Reopen(c, p.tasks[k])] && q.active == Cleared(p.active, p.tasks[k].id);
    var r := Reopen(c, p.tasks[k]);
    assert !Complete(r.status) && SameShapes(p.tasks, p.tasks[k := r]);
    hide Finalized, Checked, LastReopened, Reopen;
    ReopenedIsIncomplete(p.tasks, k, r);
  }

  lemma ReopenedIsIncomplete(ts: seq<Task>, k: nat, t: Task)
    requires k < |ts| && IsLeaf(ts, ts[k]) && SameShapes(ts, ts[k := t]) && !Complete(t.status)
    ensures !LeavesComplete(ts[k := t])
  {
    var us := ts[k := t];
    SameKnown(ts, us);
    assert us[k] in us && IsLeaf(us, us[k]);
  }

  // ---- What a reopened leaf leaves behind ----

  /** Done tasks keep done leaves through a reopening, and any aggregation after it, exactly if no task above was done. */
  lemma ReopeningKeepsLeaves(rule: Rule, c: Config, ts: seq<Task>, k: nat, us: seq<Task>)
    requires UniqueIds(ts) && LeafReopenFree(rule, ts) && LastCompleteLeaf(ts, k)
    requires Aggregated(rule, ts[k := Reopen(c, ts[k])], us)
    ensures LeafReopenFree(rule, us) <==> NoneDoneAbove(rule, ts, k)
  {
    LeafReopenBreaks(rule, ts, k, Reopen(c, ts[k]));
    LeafReopenFreeIsKept(rule, ts[k := Reopen(c, ts[k])], us);
  }

  lemma AggregatesToItself(rule: Rule, ts: seq<Task>)
    requires Stable(rule, ts)
    ensures Aggregated(rule, ts, ts)
  {
  }

  /** On an aggregated project with complete leaves, exactly a root has no complete task above it. */
  lemma DoneAboveUnlessRoot(project: string, ts: seq<Task>, k: nat)
    requires Structured(project, ts) && Phased(ts) && Stable(CandidateRule, ts) && LeavesComplete(ts) && k < |ts|
    ensures NoneDoneAbove(CandidateRule, ts, k) <==> ts[k].parent.None?
  {
    var t := ts[k];
    var r :| StructuredBy(project, ts, r);
    assert t in ts && DepthOk(ts, t);
    if t.parent.Some? {
      assert Known(ts, t.parent.value);
      var i: nat :| i < |ts| && ts[i].id == t.parent.value;
      assert ts[i] in ts && Under(ts, ts[i], ts[i]) && Under(ts, t, ts[i]) && LeavesDone(CandidateRule, ts, ts[i]);
      ParentsFollowWhenPhased(ts);
      AggregatesToItself(CandidateRule, ts);
      hide LeavesDone, Under, StructuredBy, Phased, Stable, LeavesComplete, Aggregated, ParentsFollow;
      DoneLeavesDoneTask(CandidateRule, ts, ts, r, i);
    }
  }

  lemma CompleteLeavesAreReopenFree(ts: seq<Task>)
    requires LeavesComplete(ts)
    ensures LeafReopenFree(CandidateRule, ts)
  {
  }

  /** A failed project contract leaves a complete task over an unfinished leaf, exactly unless that leaf is a root. */
  lemma ReopenedLeafUnderDoneParent(c: Config, p: Snapshot, k: nat)
    requires Sound(p, c.maxSessionsPerTask) && Stable(CandidateRule, p.tasks) && LeavesComplete(p.tasks)
    requires LastCompleteLeaf(p.tasks, k)
    ensures LeafReopenFree(CandidateRule, p.tasks[k := Reopen(c, p.tasks[k])]) <==> p.tasks[k].parent.None?
  {
    var ts := p.tasks;
    SoundFacts(p, c.maxSessionsPerTask);
    CompleteLeavesAreReopenFree(ts);
    assert IsLeaf(ts, ts[k]) && SameShape(ts[k], Reopen(c, ts[k])) && !Done(CandidateRule, Reopen(c, ts[k]).status);
    hide *;
    DoneAboveUnlessRoot(p.projectId, ts, k);
    LeafReopenBreaks(CandidateRule, ts, k, Reopen(c, ts[k]));
  }

  const FINISHED_PARENT := NewTask("x:p", "p", "plan", [], None, 0, 0).(status := CandidateComplete)
  const FINISHED_LEAF := NewTask("x:p:c", "c", "part", [], Some("x:p"), 1, 0).(status := CandidateComplete)

  /** A project on which this happens. */
  lemma FailedContractSpoilsParent(c: Config)
    ensures var ts := [FINISHED_PARENT, FINISHED_LEAF];
      && LeafReopenFree(CandidateRule, ts) && LastCompleteLeaf(ts, 1)
      && !LeafReopenFree(CandidateRule, ts[1 := Reopen(c, FINISHED_LEAF)])
  {
    var ts := [FINISHED_PARENT, FINISHED_LEAF];
    assert FINISHED_PARENT == ts[0] && FINISHED_LEAF == ts[1];
    assert forall t :: t in ts ==> t == FINISHED_PARENT || t == FINISHED_LEAF;
    assert IsChild(FINISHED_LEAF, FINISHED_PARENT.id) && !HasChild(ts, FINISHED_LEAF.id);
    assert Under(ts, FINISHED_PARENT, FINISHED_PARENT) && Under(ts, FINISHED_LEAF, FINISHED_PARENT);
    assert LeafReopenFree(CandidateRule, ts);
    LeafReopenBreaks(CandidateRule, ts, 1, Reopen(c, FINISHED_LEAF));
  }

  // ---- Failures ----

  predicate NoFailed(ts: seq<Task>) {
    forall i :: 0 <= i < |ts| ==> ts[i].status != Failed
  }

  /** A failed task had failed before and is as it was, and every key is an old one of the place or one of the world. */
  ghost predicate Continues(w: World, ts: seq<Task>, us: seq<Task>) {
    forall i :: 0 <= i < |us| ==>
      && (us[i].status == Failed ==> i < |ts| && us[i] == ts[i])
      && ((i < |ts| && us[i].key == ts[i].key) || Offered(w, us[i].key))
  }

  lemma ContinuesFurther(w: World, ts: seq<Task>, us: seq<Task>, vs: seq<Task>)
    requires Continues(w, ts, us) && Continues(w, us, vs)
    ensures Continues(w, ts, vs)
  {
    hide Offered;
  }

  lemma ContinuesItself(w: World, ts: seq<Task>)
    ensures Continues(w, ts, ts)
  {
    hide Offered;
  }

  lemma NoneFailedLater(w: World, ts: seq<Task>, us: seq<Task>)
    requires Continues(w, ts, us) && NoFailed(ts)
    ensures NoFailed(us)
  {
    hide Offered;
  }

  /** No key has a colon, now or in what the world offers. */
  ghost predicate Plain(w: World, ts: seq<Task>) {
    ColonFreeWorld(w) && ColonFreeTasks(ts)
  }

  lemma PlainLater(w: World, ts: seq<Task>, us: seq<Task>)
    requires Continues(w, ts, us) && Plain(w, ts)
    ensures Plain(w, us)
  {
    hide Offered;
    forall u | u in us
      ensures ColonFree(u.key)
    {
      var i :| 0 <= i < |us| && us[i] == u;
      assert i < |ts| ==> ts[i] in ts;
    }
  }

  lemma KeysOffered(w: World, n: nat, drafts: seq<Draft>, i: nat)
    requires i < |drafts|
    requires drafts == w.plan || drafts == w.session(n).decomposition || drafts == w.repair(n)
      || (w.session(n).recovery.DecomposeInto? && drafts == w.session(n).recovery.drafts)
    ensures Offered(w, drafts[i].key)
  {
    assert KeyOf(drafts, drafts[i].key);
    assert drafts != w.plan && drafts != w.repair(n) ==> OfferedIn(w.session(n), drafts[i].key);
  }

  lemma GiveUpIsExplained(c: Config, w: World, p: Snapshot, q: Snapshot, k: nat, t: Task, n: nat, clock: nat -> int)
    requires k < |p.tasks| && t.status == InProgress && SessionStep(c, t, w.session(n)).GiveUp?
    requires Took(p, q, k, t, GiveUp, clock)
    ensures |q.tasks| == |p.tasks| && q.tasks[k].status == InProgress && GivenUp(c, w, q.tasks[k])
  {
    hide SessionStep;
  }

  /** Without colons the drafts of a session or of a repair give a running leaf children with new ids. */
  lemma PlainStepIsFresh(c: Config, w: World, p: Snapshot, cap: nat, k: nat, t: Task, n: nat)
    requires Sound(p, cap) && Plain(w, p.tasks) && k < |p.tasks| && p.tasks[k].status == InProgress && t.id == p.tasks[k].id
    ensures FreshStep(p.tasks, t, SessionStep(c, t, w.session(n)))
    ensures IdsFresh(p.tasks, t, w.repair(n))
  {
    SoundFacts(p, cap);
    UnfinishedLeafMeansOpen(p, cap, p.tasks[k]);
    var step := SessionStep(c, t, w.session(n));
    if step.ToChildren? { PlainDraftsAreFresh(w, p, k, t, n, step.drafts); }
    PlainDraftsAreFresh(w, p, k, t, n, w.repair(n));
  }

  lemma PlainDraftsAreFresh(w: World, p: Snapshot, k: nat, t: Task, n: nat, drafts: seq<Draft>)
    requires Structured(p.projectId, p.tasks) && Plain(w, p.tasks)
    requires k < |p.tasks| && IsLeaf(p.tasks, p.tasks[k]) && t.id == p.tasks[k].id
    requires drafts == w.session(n).decomposition || drafts == w.repair(n)
      || (w.session(n).recovery.DecomposeInto? && drafts == w.session(n).recovery.drafts)
    ensures IdsFresh(p.tasks, t, drafts)
  {
    hide Structured;
    forall d | d in drafts
      ensures ColonFree(d.key)
    {
      var i :| 0 <= i < |drafts| && drafts[i] == d;
      KeysOffered(w, n, drafts, i);
    }
    ColonFreeIdsAreFresh(p.projectId, p.tasks, p.tasks[k], drafts);
  }

  lemma PromotesKeepsFailures(w: World, rule: Rule, ts: seq<Task>, us: seq<Task>)
    requires Promotes(rule, ts, us)
    ensures Continues(w, ts, us)
    ensures forall i :: 0 <= i < |ts| ==> (us[i].status == InProgress <==> ts[i].status == InProgress)
  {
    hide Offered;
  }

  /** Aggregations fail nothing and start nothing. */
  lemma AggregationsAreQuiet(w: World, ts: seq<Task>, us: seq<Task>, vs: seq<Task>)
    requires Aggregated(CandidateRule, ts, us) && Aggregated(VerifiedRule, us, vs)
    ensures Continues(w, ts, vs)
    ensures !AnyWith(ts, InProgress) ==> !AnyWith(vs, InProgress)
  {
    PromotesKeepsFailures(w, CandidateRule, ts, us);
    PromotesKeepsFailures(w, VerifiedRule, us, vs);
    ContinuesFurther(w, ts, us, vs);
    hide Continues;
    if AnyWith(vs, InProgress) {
      var v :| v in vs && v.status == InProgress;
      var i :| 0 <= i < |vs| && vs[i] == v;
      assert ts[i] in ts && ts[i].status == InProgress;
    }
  }

  lemma FailedLeavesNoneRunning(ts: seq<Task>, k: nat, active: Option<TaskId>)
    requires k < |ts| && OneActive(ts, active) && (ts[k].status == InProgress || !AnyWith(ts, InProgress))
    ensures !AnyWith(WithStatus(ts, k, Failed), InProgress)
  {
    forall i | 0 <= i < |ts| && i != k
      ensures ts[i].status != InProgress
    {
      assert ts[i] in ts;
    }
  }

  lemma FinalizedKeepsFailures(w: World, c: Config, contract: Option<Contract>, p: Snapshot, q: Snapshot, e: V.Evidence)
    requires Finalized(c, contract, p, q, e)
    ensures Continues(w, p.tasks, q.tasks)
  {
    hide Offered;
  }

  /** Nothing counts as verified yet. */
  predicate Unproven(p: Snapshot) {
    p.status != ProjectVerified && forall i :: 0 <= i < |p.tasks| ==> p.tasks[i].status != Verified
  }

  lemma ChildKeysOffered(w: World, c: Config, t: Task, n: nat)
    ensures var step := SessionStep(c, t, w.session(n));
      step.ToChildren? ==> forall i :: 0 <= i < |step.drafts| ==> Offered(w, step.drafts[i].key)
  {
    var step := SessionStep(c, t, w.session(n));
    if step.ToChildren? {
      hide Offered, SessionStep;
      assert step.drafts == w.session(n).decomposition
          || (w.session(n).recovery.DecomposeInto? && step.drafts == w.session(n).recovery.drafts) by { StepDrafts(c, t, w.session(n)); }
      forall i | 0 <= i < |step.drafts|
        ensures Offered(w, step.drafts[i].key)
      {
        KeysOffered(w, n, step.drafts, i);
      }
    }
  }

  /** The children come from the decomposer or from the chosen candidate. */
  lemma StepDrafts(c: Config, t: Task, o: SessionOutcome)
    requires SessionStep(c, t, o).ToChildren?
    ensures var drafts := SessionStep(c, t, o).drafts;
      drafts == o.decomposition || (o.recovery.DecomposeInto? && drafts == o.recovery.drafts)
  {
  }

  lemma TookKeepsFailures(w: World, c: Config, p: Snapshot, q: Snapshot, k: nat, t: Task, step: NextStep, clock: nat -> int)
    requires k < |p.tasks| && SafeStep(c, t, step) && Took(p, q, k, t, step, clock)
    requires t.status == InProgress && t.key == p.tasks[k].key
    requires step.ToChildren? ==> forall i :: 0 <= i < |step.drafts| ==> Offered(w, step.drafts[i].key)
    ensures Continues(w, p.tasks, q.tasks)
    ensures Unproven(p) ==> Unproven(q)
  {
    hide Offered;
  }

  lemma JudgedKeepsFailures(w: World, c: Config, p: Snapshot, q: Snapshot, k: nat, v: V.Verdict)
    requires k < |p.tasks| && q.tasks == p.tasks[k := Judged(c, p.tasks[k], v)] && q.status == p.status
    ensures Continues(w, p.tasks, q.tasks)
    ensures v != V.Verified && Unproven(p) ==> Unproven(q)
    ensures Judged(c, p.tasks[k], v).status != CandidateComplete
  {
    hide Offered;
  }

  /** Only a check with verdict VERIFIED makes a project or a task of it VERIFIED. */
  lemma FinalizedLeavesUnproven(c: Config, contract: Option<Contract>, p: Snapshot, q: Snapshot, e: V.Evidence)
    requires Finalized(c, contract, p, q, e) && Unproven(p)
    ensures Unproven(q) || (WillCheck(c, contract, p) && V.VerdictFor(contract.value.checks, e) == V.Verified)
  {
  }

  lemma NothingVerifiedToAggregate(ts: seq<Task>, us: seq<Task>)
    requires Aggregated(VerifiedRule, ts, us) && forall i :: 0 <= i < |ts| ==> ts[i].status != Verified
    ensures forall i :: 0 <= i < |us| ==> us[i].status != Verified
  {
    assert ClosedSet(VerifiedRule, ts, {});
    assert forall i :: 0 <= i < |us| ==> us[i] in us;
  }

  lemma AggregationsLeaveUnproven(p: Snapshot, ts: seq<Task>, q: Snapshot)
    requires Aggregated(CandidateRule, p.tasks, ts) && Aggregated(VerifiedRule, ts, q.tasks) && q.status == p.status
    ensures Unproven(p) ==> Unproven(q)
  {
    if Unproven(p) { NothingVerifiedToAggregate(ts, q.tasks); }
  }

  lemma SelectionLeavesUnproven(policy: Policy, p: Snapshot, ts: seq<Task>, mid: Snapshot, q: Snapshot, r: Selection)
    requires Promotes(CandidateRule, p.tasks, ts) && Aggregated(VerifiedRule, ts, mid.tasks) && mid.status == p.status
    requires Selects(policy, mid, q, r) && Unproven(p)
    ensures Unproven(q)
  {
    NothingVerifiedToAggregate(ts, mid.tasks);
  }

  /** After a session its task is no parent unless it was decomposed. */
  lemma TookLeaf(c: Config, p: Snapshot, q: Snapshot, k: nat, t: Task, step: NextStep, clock: nat -> int)
    requires k < |p.tasks| && SafeStep(c, t, step) && Took(p, q, k, t, step, clock) && t.status == InProgress
    requires SameShape(p.tasks[k], t) && IsLeaf(p.tasks, p.tasks[k])
    ensures k < |q.tasks| && (IsLeaf(q.tasks, q.tasks[k]) || q.tasks[k].status == Decomposed)
  {
    if !step.ToChildren? {
      SameKnown(p.tasks, q.tasks);
    }
  }

  /** Nothing can be worked on, and no blocked task explains it. */
  ghost predicate NothingMoves(ts: seq<Task>) {
    !AnyWith(ts, Ready) && !AnyWith(ts, InProgress) && !AnyWith(ts, Blocked)
  }

  lemma SelectionStuck(policy: Policy, p: Snapshot, cap: nat, ts: seq<Task>, mid: Snapshot, q: Snapshot, r: Selection)
    requires Sound(p, cap) && Aggregated(CandidateRule, p.tasks, ts) && Aggregated(VerifiedRule, ts, mid.tasks)
    requires mid == p.(tasks := mid.tasks) && Selects(policy, mid, q, r) && !r.SeveralInProgress?
    ensures r.NoReachableTask? <==> NothingMoves(q.tasks) && StuckBehindFailure(policy, q.tasks)
  {
    hide StuckBehindFailure, Sound, Aggregated;
    if AnyWith(mid.tasks, InProgress) {
      assert q.tasks == mid.tasks;
    } else {
      assert !AnyWith(q.tasks, InProgress) by { ReleaseStartsNothing(policy, mid.tasks, q.tasks); }
      if !AnyWith(q.tasks, Ready) { NoReachableTaskHasCulprit(policy, p, cap, ts, mid.tasks, q.tasks); }
      if r.NoReachableTask? { assert !AnyWith(q.tasks, Blocked); }
    }
  }

  lemma ReleaseStartsNothing(policy: Policy, ts: seq<Task>, us: seq<Task>)
    requires Released(policy, ts, us) && !AnyWith(ts, InProgress)
    ensures !AnyWith(us, InProgress)
  {
    forall u | u in us
      ensures u.status != InProgress
    {
      var i :| 0 <= i < |us| && us[i] == u;
      assert ts[i] in ts;
    }
  }

  lemma StuckNeedsFailure(ts: seq<Task>)
    requires StuckBehindFailure(CandidateCompletePolicy, ts)
    ensures !NoFailed(ts)
  {
    var w: seq<Task> :| CulpritChain(CandidateCompletePolicy, ts, w);
    assert w[|w| - 1] in ts;
  }

  lemma SelectionKeepsFailures(w: World, policy: Policy, p: seq<Task>, ts: seq<Task>, mid: Snapshot, q: Snapshot, r: Selection)
    requires Promotes(CandidateRule, p, ts) && Promotes(VerifiedRule, ts, mid.tasks) && Selects(policy, mid, q, r)
    ensures Continues(w, p, q.tasks)
  {
    hide Offered;
    PromotesKeepsFailures(w, CandidateRule, p, ts);
    PromotesKeepsFailures(w, VerifiedRule, ts, mid.tasks);
  }

  /** The picked task, by its place. */
  ghost predicate PickedAt(ts: seq<Task>, r: Selection, k: nat) {
    && r.Picked? && k < |ts| && ts[k].id == r.id && (ts[k].status == Ready || ts[k].status == InProgress)
    && (ts[k].status == Ready ==> !AnyWith(ts, InProgress))
  }

  lemma PickedHasPlace(policy: Policy, p: Snapshot, q: Snapshot, r: Selection)
    requires Selects(policy, p, q, r) && r.Picked? && UniqueIds(q.tasks)
    ensures PickedAt(q.tasks, r, Find(q.tasks, r.id))
  {
    if AnyWith(p.tasks, InProgress) {
      hide Released, TwoInProgress;
      var t :| t in p.tasks && t.id == r.id && t.status == InProgress;
      FindUnique(q.tasks, t);
    } else {
      hide Released, TwoInProgress, AnyWith;
      var t :| FirstReady(q.tasks, t) && t.id == r.id;
      FindUnique(q.tasks, t);
      ReleaseStartsNothing(policy, p.tasks, q.tasks);
    }
  }

  lemma PendingIsComplete(p: Snapshot, cap: nat)
    requires Sound(p, cap) && p.status == ProjectVerificationPending
    ensures LeavesComplete(p.tasks)
  {
    SoundFacts(p, cap);
  }

  // ---- How a run ends ----

  /** Nothing is left that could be worked on or unblocked. */
  ghost predicate Idle(ts: seq<Task>) {
    forall i :: 0 <= i < |ts| ==>
      ts[i].status != Pending && ts[i].status != Ready && ts[i].status != InProgress && ts[i].status != Blocked
  }

  /**
   Why a run that began at `since`, after so many attempts to verify the project, may end with the status it has `now`:
   it is active only if its contract was checked meanwhile or nothing is left to do, it is complete only if there was no
   contract to check and the final command passed, and it is blocked, failed or at a limit only if something is.
   */
  ghost predicate Closed(c: Config, contract: Option<Contract>, w: World, p: Snapshot, since: nat, now: nat, attempts: nat) {
    match p.status
    case Active => p.verificationAttempts > attempts || Idle(p.tasks)
    case ProjectCandidateComplete =>
      if c.contractMode then !IsProjectContract(contract) && !c.requireProjectContract
      else c.finalCommand ==> exists n: nat :: since <= n < now && w.finalCommandPasses(n)
    case ProjectBlocked => AnyWith(p.tasks, Blocked)
    case ProjectFailed =>
      AnyWith(p.tasks, Failed)
      || (!c.contractMode && c.finalCommand && exists n: nat :: since <= n < now && !w.finalCommandPasses(n))
    case SessionLimitReached => p.sessionCount >= c.maxProjectSessions
    case TimeLimitReached => exists n: nat :: since <= n < now && w.pastDeadline(n)
    case ProjectVerificationPending | ProjectVerified | PartiallyVerified => p.verificationAttempts > attempts
    case VerificationInconclusive =>
      || p.verificationAttempts > attempts
      || (IsProjectContract(contract) && p.verificationAttempts >= c.maxProjectVerificationAttempts)
      || (!IsProjectContract(contract) && c.requireProjectContract)
  }

  /**
   Session `n` was given to the task `was`, which is `now` what the session reported, or what the verdict says that was
   asked for between the two times because the contract covers the task and the session left it complete, or blocked since
   an infrastructure error.
   */
  ghost predicate WorkedOn(c: Config, contract: Option<Contract>, w: World, ts: seq<Task>, us: seq<Task>, k: nat, n: nat,
                           from: nat, to: nat)
  {
    k < |ts| && k < |us| && exists left: Task ::
      && Reported(c, WithSession(ts[k].(status := InProgress), n), w.session(n), left, |us| - |ts|, Fine)
      && if Covers(contract, left)
            && (left.status == CandidateComplete || (left.status == Blocked && left.mark == VerdictMark(V.InfrastructureError)))
         then exists m: nat :: from <= m < to && Sentenced(c, left, us[k], V.VerdictFor(contract.value.checks, w.evidence(m)))
         else us[k] == left
  }

  lemma OpenedRuns(t: Task, n: nat)
    ensures WithSession(t.(status := InProgress), n).status == InProgress
  {
  }

  lemma AwaitingMeans(contract: Option<Contract>, t: Task)
    ensures t.status == Decomposed || contract.None? || IsProjectContract(contract) ==> !AwaitsVerification(contract, t)
    ensures Covers(contract, t) && t.status == CandidateComplete ==> AwaitsVerification(contract, t)
  {
  }

  lemma WorkIsDone(c: Config, contract: Option<Contract>, w: World, ts: seq<Task>, worked: seq<Task>, us: seq<Task>, k: nat,
                   n: nat, from: nat, m: nat, to: nat)
    requires k < |ts| && k < |us| == |worked|
    requires Reported(c, WithSession(ts[k].(status := InProgress), n), w.session(n), worked[k], |worked| - |ts|, Fine)
    requires AwaitsVerification(contract, worked[k]) ==>
               from <= m < to && Sentenced(c, worked[k], us[k], V.VerdictFor(contract.value.checks, w.evidence(m)))
    requires !AwaitsVerification(contract, worked[k]) ==> us[k] == worked[k]
    ensures WorkedOn(c, contract, w, ts, us, k, n, from, to)
  {
    hide Reported, Sentenced, Covers;
  }

  lemma WorkTakesTime(c: Config, contract: Option<Contract>, w: World, ts: seq<Task>, us: seq<Task>, k: nat, n: nat,
                      from: nat, to: nat, since: nat, later: nat)
    requires WorkedOn(c, contract, w, ts, us, k, n, from, to) && since <= from && to <= later
    ensures WorkedOn(c, contract, w, ts, us, k, n, since, later)
  {
    hide Reported, Sentenced, Covers;
  }

  /** What explains a status stays: blocked and failed tasks, and that nothing is left to do. */
  ghost predicate Settled(ts: seq<Task>, us: seq<Task>) {
    && (AnyWith(ts, Blocked) ==> AnyWith(us, Blocked)) && (AnyWith(ts, Failed) ==> AnyWith(us, Failed))
    && (Idle(ts) ==> Idle(us))
  }

  lemma PromotionsSettle(rule: Rule, ts: seq<Task>, us: seq<Task>)
    requires Promotes(rule, ts, us)
    ensures Settled(ts, us)
  {
    forall s | (s == Blocked || s == Failed) && AnyWith(ts, s)
      ensures AnyWith(us, s)
    {
      var t :| t in ts && t.status == s;
      var i :| 0 <= i < |ts| && ts[i] == t;
      assert us[i] in us;
    }
  }

  lemma AggregationsSettle(ts: seq<Task>, us: seq<Task>, vs: seq<Task>)
    requires Aggregated(CandidateRule, ts, us) && Aggregated(VerifiedRule, us, vs)
    ensures Settled(ts, vs)
  {
    PromotionsSettle(CandidateRule, ts, us);
    PromotionsSettle(VerifiedRule, us, vs);
  }

  lemma ClosedStays(c: Config, contract: Option<Contract>, w: World, p: Snapshot, q: Snapshot, since: nat, now: nat, later: nat,
                    attempts: nat)
    requires Closed(c, contract, w, p, since, now, attempts) && now <= later
    requires q.status == p.status && Settled(p.tasks, q.tasks)
    requires q.verificationAttempts >= p.verificationAttempts && q.sessionCount >= p.sessionCount
    ensures Closed(c, contract, w, q, since, later, attempts)
  {
    hide Idle, AnyWith;
  }

  lemma ClosedSince(c: Config, contract: Option<Contract>, w: World, p: Snapshot, since: nat, from: nat, now: nat,
                    attempts: nat, more: nat)
    requires Closed(c, contract, w, p, from, now, more) && since <= from && attempts <= more
    ensures Closed(c, contract, w, p, since, now, attempts)
  {
    hide Idle, AnyWith;
  }

  /** With a contract to look for, finalizing leaves a status that is explained. */
  lemma FinalizedCloses(c: Config, contract: Option<Contract>, w: World, p: Snapshot, q: Snapshot, e: V.Evidence, since: nat, now: nat)
    requires Finalized(c, contract, p, q, e) && (c.contractMode || IsProjectContract(contract))
    ensures Closed(c, contract, w, q, since, now, p.verificationAttempts) && q.verificationAttempts >= p.verificationAttempts
    ensures contract.None? ==> q.tasks == p.tasks
  {
    hide LastReopened, AllMarkedVerified;
  }

  lemma CommandCloses(c: Config, contract: Option<Contract>, w: World, p: Snapshot, since: nat)
    requires !c.contractMode
    requires p.status == if c.finalCommand && !w.finalCommandPasses(since) then ProjectFailed else ProjectCandidateComplete
    ensures Closed(c, contract, w, p, since, since + 1, p.verificationAttempts)
  {
    assert since <= since < since + 1;
  }

  lemma DeadlineCloses(c: Config, contract: Option<Contract>, w: World, p: Snapshot, since: nat, n: nat, now: nat, attempts: nat)
    requires p.status == TimeLimitReached && since <= n < now && w.pastDeadline(n)
    ensures Closed(c, contract, w, p, since, now, attempts)
  {
  }

  /** Opening the session first makes no difference. */
  lemma CompletedWhenOpened(ts: seq<Task>, us: seq<Task>, vs: seq<Task>, k: nat, n: nat)
    requires k < |ts| && us == ts[k := WithSession(ts[k].(status := InProgress), n)]
    ensures CompletedAt(us, vs, k) ==> CompletedAt(ts, vs, k)
  {
    if CompletedAt(us, vs, k) {
      assert SameShape(ts[k], us[k]) && SameShape(ts[k], vs[k]);
      assert ts[k := us[k]][k := vs[k]] == ts[k := vs[k]];
    }
  }

  lemma CompletedKeepsKeys(ts: seq<Task>, us: seq<Task>, k: nat)
    requires CompletedAt(ts, us, k)
    ensures UniqueKeys(us) <==> UniqueKeys(ts)
  {
    assert forall i :: 0 <= i < |ts| ==> us[i].key == ts[i].key;
  }

  lemma ServedKeepsKeys(ts: seq<Task>, us: seq<Task>)
    requires Served(ts, us)
    ensures UniqueKeys(ts) <==> UniqueKeys(us)
  {
  }

  /** A blocked task awaits its verification only after an infrastructure error, and it is no parent. */
  lemma BlockedAwaits(contract: Option<Contract>, t: Task)
    requires t.status == Blocked
    ensures AwaitsVerification(contract, t) ==> t.mark == VerdictMark(V.InfrastructureError)
    ensures !ParentStatus(t.status)
  {
  }

  lemma OpenLimit(p: Snapshot)
    ensures p.status == SessionLimitReached || p.status == TimeLimitReached || p.status == ProjectFailed ==> Open(p)
  {
  }

  lemma UnprovenStays(p: Snapshot, q: Snapshot)
    requires q.tasks == p.tasks && q.status != ProjectVerified
    ensures Unproven(p) ==> Unproven(q)
  {
  }

  /** A ready or running task may fail. */
  lemma MayFail(t: Task)
    requires t.status == Ready || t.status == InProgress
    ensures Legal(t.status, Failed) && !ParentStatus(t.status)
  {
  }

  lemma FailureKeepsSound(p: Snapshot, q: Snapshot, cap: nat, k: nat)
    requires Sound(p, cap) && Open(p) && k < |p.tasks| && IsLeaf(p.tasks, p.tasks[k])
    requires q.tasks == WithStatus(p.tasks, k, Failed) && q.active == ActiveAfter(p.active, p.tasks[k].id, Failed)
    requires q.projectId == p.projectId && q.sessionCount == p.sessionCount && q.status == ProjectFailed
    ensures Sound(q, cap) && (Unproven(p) ==> Unproven(q))
  {
    RetaskKeepsSound(p, q, cap, k, p.tasks[k].(status := Failed));
  }

  lemma FailureCloses(c: Config, contract: Option<Contract>, w: World, p: Snapshot, k: nat, since: nat, now: nat, attempts: nat)
    requires p.status == ProjectFailed && k < |p.tasks| && p.tasks[k].status == Failed
    ensures Closed(c, contract, w, p, since, now, attempts)
  {
    assert p.tasks[k] in p.tasks;
  }

  lemma ForemostHasPlace(ts: seq<Task>, r: Selection)
    requires r.Picked? && UniqueIds(ts) && exists k :: 0 <= k < |ts| && ts[k].id == r.id && Foremost(ts, k)
    ensures Foremost(ts, Find(ts, r.id))
  {
    var k :| 0 <= k < |ts| && ts[k].id == r.id && Foremost(ts, k);
    FindIndex(ts, k);
  }

  /** Whatever was released between the two lists, the leaves below its dependencies are complete. */
  ghost predicate ReleasedBehindLeaves(ts: seq<Task>, us: seq<Task>) {
    |us| == |ts| && forall i :: 0 <= i < |ts| && ts[i].status == Pending && us[i].status == Ready ==>
      forall d :: d in ts[i].dependencies ==> LeavesCompleteUnder(ts, d)
  }

  lemma SelectionWaitsForLeaves(policy: Policy, p: Snapshot, cap: nat, ts: seq<Task>, mid: Snapshot, q: Snapshot, r: Selection)
    requires Sound(p, cap) && LeafReopenFree(CandidateRule, p.tasks)
    requires Aggregated(CandidateRule, p.tasks, ts) && Aggregated(VerifiedRule, ts, mid.tasks)
    requires Selects(policy, mid, q, r) && !TwoInProgress(mid.tasks)
    ensures ReleasedBehindLeaves(p.tasks, q.tasks)
  {
    hide Sound, Aggregated, LeafReopenFree, LeavesCompleteUnder, Released, Selects, TwoInProgress, AnyWith;
    SelectedLists(policy, p.tasks, ts, mid, q, r);
    forall i | 0 <= i < |p.tasks| && p.tasks[i].status == Pending && q.tasks[i].status == Ready
      ensures forall d :: d in p.tasks[i].dependencies ==> LeavesCompleteUnder(p.tasks, d)
    {
      StillPending(p.tasks, ts, mid.tasks, i);
      ReleasedIffLeavesComplete(policy, p, cap, ts, mid.tasks, q.tasks, i);
    }
  }

  lemma SelectedLists(policy: Policy, ps: seq<Task>, ts: seq<Task>, mid: Snapshot, q: Snapshot, r: Selection)
    requires Aggregated(CandidateRule, ps, ts) && Aggregated(VerifiedRule, ts, mid.tasks)
    requires Selects(policy, mid, q, r) && !TwoInProgress(mid.tasks)
    ensures |q.tasks| == |ps| && (q.tasks == mid.tasks || Released(policy, mid.tasks, q.tasks))
  {
    PromotesOnly(CandidateRule, ps, ts);
    PromotesOnly(VerifiedRule, ts, mid.tasks);
    hide Aggregated, TwoInProgress, AnyWith;
  }

  lemma StillPending(ts: seq<Task>, us: seq<Task>, vs: seq<Task>, i: nat)
    requires Aggregated(CandidateRule, ts, us) && Aggregated(VerifiedRule, us, vs) && i < |ts| && ts[i].status == Pending
    ensures i < |vs| && vs[i].status == Pending
  {
    PendingStaysPending(CandidateRule, ts, us, i);
    PendingStaysPending(VerifiedRule, us, vs, i);
  }

  /** What the selector says when it picks no task. */
  ghost predicate SelectorStops(p: Snapshot, q: Snapshot) {
    || (q.status == ProjectCandidateComplete && LeavesComplete(q.tasks))
    || (q.status == ProjectBlocked && AnyWith(q.tasks, Blocked))
    || (q.status == p.status && Idle(q.tasks))
  }

  lemma SelectionStops(policy: Policy, p: Snapshot, q: Snapshot, r: Selection)
    requires Selects(policy, p, q, r)
    ensures r.Nothing? ==> SelectorStops(p, q)
    ensures r.Picked? ==> q.status == p.status
  {
    hide Released, LeavesComplete;
    if r.Nothing? && q.status == p.status && !AnyWith(q.tasks, Blocked) && !LeavesComplete(q.tasks) {
      forall i | 0 <= i < |q.tasks|
        ensures q.tasks[i].status !in {Pending, Ready, InProgress, Blocked}
      {
        assert q.tasks[i] in q.tasks;
      }
    }
  }

  lemma SelectorStopsBefore(p: Snapshot, mid: Snapshot, q: Snapshot)
    requires mid.status == p.status
    ensures SelectorStops(p, q) <==> SelectorStops(mid, q)
  {
  }

  lemma StopCloses(c: Config, contract: Option<Contract>, w: World, p: Snapshot, q: Snapshot, since: nat, now: nat, attempts: nat)
    requires SelectorStops(p, q) && q.status != ProjectCandidateComplete
    ensures Closed(c, contract, w, q, since, now, attempts) || (q.status == p.status && q.status != Active)
  {
    hide Idle, AnyWith, LeavesComplete;
  }

  // ---- Resuming ----

  /** The statuses a project is taken out of when it is resumed. */
  predicate Stopped(s: ProjectStatus) {
    s == SessionLimitReached || s == TimeLimitReached || s == ProjectFailed
  }

  predicate MustDecompose(c: Config, t: Task) {
    t.status == Failed && NoProgressRequired(c, t)
  }

  predicate MayRetry(c: Config, t: Task) {
    t.status == Failed && !NoProgressRequired(c, t) && |t.sessions| < c.maxSessionsPerTask
  }

  /** What the first pass of a resume makes of a task. */
  function Restarted(c: Config, t: Task): Task {
    if MustDecompose(c, t) then t.(status := InProgress) else if MayRetry(c, t) then t.(status := Ready) else t
  }

  /** The last of the tasks a resume decomposes. */
  function LastForced(c: Config, ts: seq<Task>): (r: Option<nat>)
    ensures r.Some? ==> r.value < |ts| && MustDecompose(c, ts[r.value])
    ensures forall i :: 0 <= i < |ts| && MustDecompose(c, ts[i]) ==> r.Some? && i <= r.value
  {
    if ts == [] then None
    else if MustDecompose(c, ts[|ts| - 1]) then Some(|ts| - 1)
    else LastForced(c, ts[..|ts| - 1])
  }

  /** The active task when the forced ones among the first `n` are decomposed: each of them took the place of `was`. */
  function ActiveInRepair(c: Config, ts: seq<Task>, n: nat, was: Option<TaskId>): Option<TaskId> {
    match LastForced(c, ts)
    case None => was
    case Some(l) => if n <= l then Some(ts[l].id) else None
  }

  /** Nothing runs, or nothing has to be decomposed. */
  predicate Repairable(c: Config, ts: seq<Task>) {
    !AnyWith(ts, InProgress) || LastForced(c, ts).None?
  }

  /** The tasks `ts` were restarted, and those among the first `n` that had to be were decomposed. */
  ghost predicate Repaired(c: Config, ts: seq<Task>, us: seq<Task>, n: nat) {
    && |ts| <= |us|
    && (forall i :: 0 <= i < |ts| ==>
          us[i] == if i < n && MustDecompose(c, ts[i]) then ts[i].(status := Decomposed) else Restarted(c, ts[i]))
    && forall i :: |ts| <= i < |us| ==> us[i].status == Pending
  }

  /** The invariant without the active task, which a repair may spoil. */
  ghost predicate Orderly(p: Snapshot, cap: nat) {
    Structured(p.projectId, p.tasks) && Phased(p.tasks) && Accounted(p.tasks, p.sessionCount, cap) && p.status == Active
  }

  lemma OrderlyIsSound(p: Snapshot, cap: nat)
    requires Orderly(p, cap)
    ensures Sound(p, cap) <==> OneActive(p.tasks, p.active)
  {
    if OneActive(p.tasks, p.active) {
      FinishDecomposition(p, cap);
    }
    if Sound(p, cap) { SoundFacts(p, cap); }
  }

  ghost predicate AllRestarted(c: Config, ts: seq<Task>, us: seq<Task>) {
    |us| == |ts| && forall i :: 0 <= i < |ts| ==> us[i] == Restarted(c, ts[i])
  }

  lemma RestartKeepsPhase(c: Config, ts: seq<Task>, us: seq<Task>)
    requires AllRestarted(c, ts, us) && Phased(ts) && SameShapes(ts, us)
    ensures Phased(us)
  {
    SameKnown(ts, us);
    forall u | u in us
      ensures Fits(u, HasChild(us, u.id))
    {
      var i :| 0 <= i < |us| && us[i] == u;
      assert ts[i] in ts;
      assert HasChild(us, u.id) == HasChild(ts, ts[i].id);
    }
  }

  lemma RestartRepaints(c: Config, ts: seq<Task>, us: seq<Task>)
    requires AllRestarted(c, ts, us)
    ensures Repainted(ts, us) && Repaired(c, ts, us, 0)
  {
  }

  lemma RestartStaysPlain(w: World, c: Config, ts: seq<Task>, us: seq<Task>)
    requires AllRestarted(c, ts, us) && Plain(w, ts)
    ensures Plain(w, us)
  {
    hide Offered, ColonFreeWorld;
    forall u | u in us
      ensures ColonFree(u.key)
    {
      var i :| 0 <= i < |us| && us[i] == u;
      assert ts[i] in ts;
    }
  }

  lemma RestartKeepsOrder(c: Config, p: Snapshot, q: Snapshot)
    requires Sound(p, c.maxSessionsPerTask) && q == p.(tasks := q.tasks, active := q.active, status := Active)
    requires AllRestarted(c, p.tasks, q.tasks)
    ensures Orderly(q, c.maxSessionsPerTask) && Repaired(c, p.tasks, q.tasks, 0)
  {
    SoundFacts(p, c.maxSessionsPerTask);
    RestartRepaints(c, p.tasks, q.tasks);
    assert SameShapes(p.tasks, q.tasks);
    hide Sound, AllRestarted, Repaired, Repainted, Structured, Phased, Accounted, SameShapes, OneActive, StatusEarned;
    RepaintKeepsAccounts(p.tasks, q.tasks, p.sessionCount, c.maxSessionsPerTask);
    ShapesDecideStructure(p.projectId, p.tasks, q.tasks);
    RestartKeepsPhase(c, p.tasks, q.tasks);
  }

  /** An accepted decomposition of a running leaf. */
  lemma ChildrenKeepOrder(c: Config, project: string, ts: seq<Task>, k: nat, drafts: seq<Draft>, n: nat, clock: nat -> int)
    requires ValidConfig(c) && Structured(project, ts) && Phased(ts) && Accounted(ts, n, c.maxSessionsPerTask)
    requires k < |ts| && ts[k].status == InProgress && ValidChildren(c, ts[k], drafts) && IdsFresh(ts, ts[k], drafts)
    ensures var us := WithStatus(ts, k, Decomposed) + ChildTasks(ts[k], drafts, clock);
      Structured(project, us) && Phased(us) && Accounted(us, n, c.maxSessionsPerTask)
  {
    var t, cs := ts[k], ChildTasks(ts[k], drafts, clock);
    assert t in ts && Fits(t, HasChild(ts, t.id));
    assert !HasChild(ts, t.id) && |drafts| >= c.minChildren;
    AcceptedDraftsMakeFamily(t.id, Some(t.id), ChildDepth(t), drafts, Some(t.objective), c.minChildren, c.maxChildren, clock);
    FreshIdsAreApart(ts, t, drafts, clock);
    assert cs != [] && forall x :: x in cs ==> x.attempts == 0 && x.sessions == [];
    assert UniqueIds(ts);
    hide Structured, ChildTasks, IdsFresh, IdsApart, NewFamily, Phased, Accounted, Fits, ValidChildren, WithStatus, HasChild, Made, UniqueIds;
    var r := DecompositionStructure(project, ts, k, cs);
    DecompositionKeepsPhase(ts, k, cs, r);
    DecompositionKeepsAccounts(ts, k, cs, n, c.maxSessionsPerTask);
  }

  lemma RepairKeepsOrder(c: Config, p: Snapshot, q: Snapshot, k: nat, drafts: seq<Draft>, clock: nat -> int)
    requires ValidConfig(c) && Orderly(p, c.maxSessionsPerTask) && k < |p.tasks| && p.tasks[k].status == InProgress
    requires ValidChildren(c, p.tasks[k], drafts) && IdsFresh(p.tasks, p.tasks[k], drafts)
    requires Took(p, q, k, p.tasks[k], ToChildren(drafts), clock)
    ensures Orderly(q, c.maxSessionsPerTask)
    ensures |p.tasks| <= |q.tasks| && q.tasks[..|p.tasks|] == WithStatus(p.tasks, k, Decomposed)
    ensures forall i :: |p.tasks| <= i < |q.tasks| ==> q.tasks[i].status == Pending
    ensures q.active == ActiveAfter(p.active, p.tasks[k].id, Decomposed)
  {
    hide Structured, Phased, Accounted, ValidChildren, IdsFresh;
    assert p.tasks[k := p.tasks[k]] == p.tasks;
    ChildrenKeepOrder(c, p.projectId, p.tasks, k, drafts, p.sessionCount, clock);
  }

  lemma OrderlyIds(p: Snapshot, cap: nat)
    requires Orderly(p, cap)
    ensures UniqueIds(p.tasks)
  {
    var r :| StructuredBy(p.projectId, p.tasks, r);
  }

  /** A task to decompose runs until it is, and the planning mode is adaptive. */
  lemma StuckIsForced(c: Config, ts: seq<Task>, us: seq<Task>, k: nat)
    requires k < |ts| && MustDecompose(c, ts[k]) && Repaired(c, ts, us, k)
    ensures k < |us| && us[k].status == InProgress && us[k].id == ts[k].id && NoProgressRequired(c, us[k])
  {
  }

  lemma RepairIsFresh(w: World, p: Snapshot, cap: nat, k: nat, n: nat)
    requires Orderly(p, cap) && Plain(w, p.tasks) && k < |p.tasks| && p.tasks[k].status == InProgress
    ensures IdsFresh(p.tasks, p.tasks[k], w.repair(n))
  {
    assert p.tasks[k] in p.tasks && Fits(p.tasks[k], HasChild(p.tasks, p.tasks[k].id));
    hide Orderly, Plain;
    PlainDraftsAreFresh(w, p, k, p.tasks[k], n, w.repair(n));
  }

  /** The children of a repair have keys the world offers. */
  lemma RepairStaysPlain(w: World, p: Snapshot, q: Snapshot, k: nat, n: nat, clock: nat -> int)
    requires Plain(w, p.tasks) && k < |p.tasks| && Took(p, q, k, p.tasks[k], ToChildren(w.repair(n)), clock)
    ensures Plain(w, q.tasks)
  {
    hide Offered;
    var cs := ChildTasks(p.tasks[k], w.repair(n), clock);
    assert q.tasks == WithStatus(p.tasks[k := p.tasks[k]], k, Decomposed) + cs;
    assert p.tasks[k] in p.tasks;
    forall i | 0 <= i < |cs|
      ensures ColonFree(cs[i].key)
    {
      KeysOffered(w, n, w.repair(n), i);
    }
  }

  lemma ForcedStep(c: Config, t: Task, drafts: seq<Draft>)
    requires NoProgressRequired(c, t)
    ensures DecompositionStep(c, t, true, SessionOutcome(None, false, false, NoValidCandidate, drafts)) == DecomposerStep(c, t, drafts)
  {
  }

  /** How the decomposition of a stuck task ends, and why. */
  lemma RepairEnds(c: Config, w: World, p: Snapshot, q: Snapshot, k: nat, n: nat, clock: nat -> int, o: Outcome)
    requires UniqueIds(p.tasks) && k < |p.tasks| && p.tasks[k].status == InProgress && NoProgressRequired(c, p.tasks[k])
    requires var step := DecomposerStep(c, p.tasks[k], w.repair(n));
      Took(p, q, k, p.tasks[k], step, clock) && o == StepOutcome(p.tasks, p.tasks[k], step)
    ensures o == Fine || o == Raised(DecompositionFailed) || o == Raised(IdClash)
    ensures o == Fine ==> ValidChildren(c, p.tasks[k], w.repair(n)) && Took(p, q, k, p.tasks[k], ToChildren(w.repair(n)), clock)
    ensures o == Fine || o == Raised(DecompositionFailed) || !IdsFresh(p.tasks, p.tasks[k], w.repair(n))
    ensures o == Fine ==> IdsFresh(p.tasks, p.tasks[k], w.repair(n))
    ensures o == Raised(DecompositionFailed) ==> k < |q.tasks| && q.tasks[k].status == InProgress && GivenUp(c, w, q.tasks[k])
    ensures o == Raised(IdClash) ==> !UniqueIds(q.tasks)
  {
    assert p.tasks[k := p.tasks[k]] == p.tasks;
    if ValidChildren(c, p.tasks[k], w.repair(n)) {
      assert UniqueDraftKeys(w.repair(n));
      hide ValidChildren, UniqueIds, UniqueDraftKeys, IdsFresh, ChildTasks;
      FreshIdsStayUnique(p.tasks, k, p.tasks[k], w.repair(n), clock);
    }
  }

  lemma RepairOneMore(c: Config, ts: seq<Task>, us: seq<Task>, n: nat, vs: seq<Task>)
    requires Repaired(c, ts, us, n) && n < |ts| && |us| <= |vs|
    requires if MustDecompose(c, ts[n])
             then vs[..|us|] == WithStatus(us, n, Decomposed) && forall i :: |us| <= i < |vs| ==> vs[i].status == Pending
             else vs == us
    ensures Repaired(c, ts, vs, n + 1)
  {
    assert forall i :: 0 <= i < |us| ==> vs[i] == vs[..|us|][i];
  }

  lemma ActiveOneMore(c: Config, ts: seq<Task>, n: nat, was: Option<TaskId>)
    requires n < |ts| && UniqueIds(ts)
    ensures ActiveInRepair(c, ts, n + 1, was) == if MustDecompose(c, ts[n])
              then ActiveAfter(ActiveInRepair(c, ts, n, was), ts[n].id, Decomposed) else ActiveInRepair(c, ts, n, was)
  {
  }

  /** A stuck task is decomposed, and the repair goes on. */
  lemma RepairStep(c: Config, w: World, ts: seq<Task>, p: Snapshot, q: Snapshot, k: nat, n: nat, was: Option<TaskId>, clock: nat -> int)
    requires ValidConfig(c) && Orderly(p, c.maxSessionsPerTask) && UniqueIds(ts)
    requires k < |ts| && MustDecompose(c, ts[k]) && Repaired(c, ts, p.tasks, k) && p.active == ActiveInRepair(c, ts, k, was)
    requires k < |p.tasks| && p.tasks[k].status == InProgress && p.tasks[k].id == ts[k].id
    requires ValidChildren(c, p.tasks[k], w.repair(n)) && IdsFresh(p.tasks, p.tasks[k], w.repair(n))
    requires Took(p, q, k, p.tasks[k], ToChildren(w.repair(n)), clock)
    ensures Orderly(q, c.maxSessionsPerTask) && Repaired(c, ts, q.tasks, k + 1) && q.active == ActiveInRepair(c, ts, k + 1, was)
    ensures Plain(w, p.tasks) ==> Plain(w, q.tasks)
  {
    hide Orderly, Repaired, ActiveInRepair, UniqueIds, ValidChildren, IdsFresh, Plain, Took, MustDecompose, WithStatus;
    if Plain(w, p.tasks) { RepairStaysPlain(w, p, q, k, n, clock); }
    RepairKeepsOrder(c, p, q, k, w.repair(n), clock);
    RepairOneMore(c, ts, p.tasks, k, q.tasks);
    ActiveOneMore(c, ts, k, was);
  }

  /** Exactly what ran before the repair runs after it. */
  lemma RepairedRuns(c: Config, ts: seq<Task>, us: seq<Task>, i: nat)
    requires Repaired(c, ts, us, |ts|) && i < |us|
    ensures us[i].status == InProgress <==> i < |ts| && ts[i].status == InProgress
    ensures us[i].status == InProgress ==> us[i] == ts[i]
  {
  }

  lemma RepairedNothing(c: Config, ts: seq<Task>, us: seq<Task>, was: Option<TaskId>)
    requires Repaired(c, ts, us, |ts|) && OneActive(ts, was)
    ensures OneActive(us, was)
  {
    forall i | 0 <= i < |us|
      ensures us[i].status == InProgress <==> i < |ts| && ts[i].status == InProgress
      ensures us[i].status == InProgress ==> us[i] == ts[i]
    {
      RepairedRuns(c, ts, us, i);
    }
    if was.Some? {
      var t :| t in ts && t.id == was.value;
      var i :| 0 <= i < |ts| && ts[i] == t;
      assert us[i].id == was.value && us[i] in us;
    }
  }

  lemma RepairedSome(c: Config, ts: seq<Task>, us: seq<Task>)
    requires Repaired(c, ts, us, |ts|)
    ensures OneActive(us, None) <==> !AnyWith(ts, InProgress)
  {
    if AnyWith(ts, InProgress) {
      var t :| t in ts && t.status == InProgress;
      var i :| 0 <= i < |ts| && ts[i] == t;
      RepairedRuns(c, ts, us, i);
    } else {
      forall i | 0 <= i < |us|
        ensures us[i].status != InProgress
      {
        RepairedRuns(c, ts, us, i);
        assert i < |ts| ==> ts[i] in ts;
      }
    }
  }

  /** After a repair the active task is right exactly if nothing ran before or nothing was decomposed. */
  lemma RepairedActive(c: Config, ts: seq<Task>, us: seq<Task>, was: Option<TaskId>)
    requires Repaired(c, ts, us, |ts|) && OneActive(ts, was)
    ensures OneActive(us, ActiveInRepair(c, ts, |ts|, was)) <==> Repairable(c, ts)
  {
    hide Repaired, OneActive;
    if LastForced(c, ts).None? { RepairedNothing(c, ts, us, was); } else { RepairedSome(c, ts, us); }
  }

  const STUCK_TASK := NewTask("x:a", "a", "first", [], None, 0, 0).(status := Failed)
  const RUNNING_TASK := NewTask("x:b", "b", "second", [], None, 0, 0).(status := InProgress)
  const REPAIR_DRAFT := Draft("c", "a part of it", ["done"], [])

  /** A stopped project with a failed task that made no progress and a running one. */
  function StuckProject(c: Config): Snapshot {
    Snapshot("x", [STUCK_TASK.(noProgress := c.maxNoProgressSessions), RUNNING_TASK], Some("x:b"), TimeLimitReached, 1, 0, 0, None)
  }

  /** The project after the first pass of a resume. */
  function RestartedProject(c: Config): Snapshot {
    var p := StuckProject(c);
    p.(tasks := p.tasks[0 := p.tasks[0].(status := InProgress)], active := Some("x:a"), status := Active)
  }

  /** The project after both passes. */
  function RepairedProject(c: Config, clock: nat -> int): Snapshot {
    var p := RestartedProject(c);
    p.(tasks := WithStatus(p.tasks, 0, Decomposed) + ChildTasks(p.tasks[0], [REPAIR_DRAFT], clock),
       active := None, planVersion := 2)
  }

  lemma StuckTasks(c: Config)
    ensures var ts := StuckProject(c).tasks;
      && ts[0] in ts && ts[1] in ts && (forall t :: t in ts ==> t == ts[0] || t == ts[1]) && ts[0].id != ts[1].id
      && ts[0].id == Qualified("x", "a") && ts[1].id == Qualified("x", "b")
      && (forall t :: t in ts ==> !HasChild(ts, t.id) && t.parent == None && t.depth == 0 && t.dependencies == [] && t.sessions == [])
  {
    assert "x:a" == Qualified("x", "a") && "x:b" == Qualified("x", "b");
  }

  lemma StuckProjectIsStructured(c: Config)
    ensures StructuredBy("x", StuckProject(c).tasks, map["x:a" := 0, "x:b" := 0])
  {
    var ts := StuckProject(c).tasks;
    var r: Rank := map["x:a" := 0, "x:b" := 0];
    StuckTasks(c);
    hide HasChild, Qualified;
    assert forall id {:trigger Known(ts, id)} :: id in r ==> Known(ts, id);
  }

  lemma StuckProjectIsSound(c: Config, cap: nat)
    ensures Sound(StuckProject(c), cap)
  {
    var p := StuckProject(c);
    StuckTasks(c);
    StuckProjectIsStructured(c);
    hide StructuredBy, HasChild;
    NoSessions(p.tasks, cap);
    assert Phased(p.tasks) by { assert forall t :: t in p.tasks ==> Fits(t, HasChild(p.tasks, t.id)); }
    assert OneActive(p.tasks, p.active) by { assert Known(p.tasks, "x:b"); }
    assert StatusEarned(p);
    hide Phased, OneActive, Accounted, StatusEarned, StuckProject;
    assert SoundBy(p, cap, map["x:a" := 0, "x:b" := 0]);
  }

  lemma RepairDraftIsValid(c: Config)
    requires c.maxDepth > 0 && c.minChildren <= 1 <= c.maxChildren
    ensures ValidChildren(c, RestartedProject(c).tasks[0], [REPAIR_DRAFT])
  {
    assert Strip("a part of it") == "a part of it" && Strip("first") == "first";
    IndependentDraftsAreValid([REPAIR_DRAFT], Some("first"), c.minChildren, c.maxChildren);
  }

  lemma StuckIsRestarted(c: Config)
    requires IsAdaptive(c) && c.maxDepth > 0
    ensures var ts := StuckProject(c).tasks;
      AllRestarted(c, ts, RestartedProject(c).tasks) && MustDecompose(c, ts[0]) && !MustDecompose(c, ts[1])
  {
  }

  lemma RestartedIsRepaired(c: Config, clock: nat -> int)
    requires IsAdaptive(c) && c.maxDepth > 0
    ensures var p, mid, q := StuckProject(c), RestartedProject(c), RepairedProject(c, clock);
      && Took(mid, q, 0, mid.tasks[0], ToChildren([REPAIR_DRAFT]), clock) && Repaired(c, p.tasks, q.tasks, 2)
      && q.tasks[1] == RUNNING_TASK && q.active == None
  {
    var p, mid, q := StuckProject(c), RestartedProject(c), RepairedProject(c, clock);
    StuckIsRestarted(c);
    assert mid.tasks[0 := mid.tasks[0]] == mid.tasks;
    hide MustDecompose;
    assert q.tasks[0] == p.tasks[0].(status := Decomposed);
  }

  /** From a sound project, restarting and an accepted decomposition leave a running task that is not the active one. */
  lemma RepairCanLoseActive(c: Config, cap: nat, clock: nat -> int)
    requires IsAdaptive(c) && c.maxDepth > 0 && c.minChildren <= 1 <= c.maxChildren
    ensures var p, mid, q := StuckProject(c), RestartedProject(c), RepairedProject(c, clock);
      && Sound(p, cap) && AllRestarted(c, p.tasks, mid.tasks) && ValidChildren(c, mid.tasks[0], [REPAIR_DRAFT])
      && Took(mid, q, 0, mid.tasks[0], ToChildren([REPAIR_DRAFT]), clock) && Repaired(c, p.tasks, q.tasks, 2)
      && q.active == None && !OneActive(q.tasks, q.active)
  {
    StuckProjectIsSound(c, cap);
    RepairDraftIsValid(c);
    StuckIsRestarted(c);
    RestartedIsRepaired(c, clock);
    var q := RepairedProject(c, clock);
    hide Sound, AllRestarted, ValidChildren, Took, Repaired, StuckProject, RestartedProject, RepairedProject, MustDecompose;
    assert q.tasks[1].status == InProgress;
  }

  /** May the project be resumed? A run that starts with nothing to decompose always ends like this. */
  predicate Resumable(c: Config, p: Snapshot) {
    LastForced(c, p.tasks).None? || (Stopped(p.status) && Repairable(c, p.tasks))
  }

  lemma NoneForcedLater(w: World, c: Config, ts: seq<Task>, us: seq<Task>)
    requires Continues(w, ts, us) && LastForced(c, ts).None?
    ensures LastForced(c, us).None?
  {
  }

  lemma RunEndsResumable(w: World, c: Config, ts: seq<Task>, p: Snapshot)
    requires Continues(w, ts, p.tasks) || (p.status == ProjectFailed && !AnyWith(p.tasks, InProgress))
    ensures LastForced(c, ts).None? ==> Resumable(c, p)
  {
    if Continues(w, ts, p.tasks) && LastForced(c, ts).None? { NoneForcedLater(w, c, ts, p.tasks); }
  }

  lemma NoneForcedAfterRepair(c: Config, ts: seq<Task>, us: seq<Task>)
    requires Repaired(c, ts, us, |ts|)
    ensures LastForced(c, us).None?
  {
  }

  /** A repair verifies nothing, and no task stays failed that it can take up again. */
  lemma RepairLeavesNoFailure(c: Config, ts: seq<Task>, us: seq<Task>)
    requires Repaired(c, ts, us, |ts|)
    ensures (forall t :: t in ts && t.status == Failed ==> MustDecompose(c, t) || MayRetry(c, t)) ==> NoFailed(us)
    ensures (forall i :: 0 <= i < |ts| ==> ts[i].status != Verified) ==> forall i :: 0 <= i < |us| ==> us[i].status != Verified
  {
    forall i | 0 <= i < |us| && us[i].status == Failed
      ensures i < |ts| && ts[i] in ts && ts[i].status == Failed && !MustDecompose(c, ts[i]) && !MayRetry(c, ts[i])
    {
    }
  }

  /** What a repair leaves may be resumed, and so may what need not be repaired. */
  lemma ResumableMeans(c: Config, p: Snapshot, q: Snapshot)
    ensures Resumable(c, p) && !Stopped(p.status) ==> LastForced(c, p.tasks).None?
    ensures Resumable(c, p) ==> Repairable(c, p.tasks)
    ensures LastForced(c, q.tasks).None? ==> Resumable(c, q)
  {
    hide LastForced, Stopped;
  }

  lemma UnprovenAfterRepair(p: Snapshot, q: Snapshot)
    requires q.status == Active
    requires (forall i :: 0 <= i < |p.tasks| ==> p.tasks[i].status != Verified) ==> forall i :: 0 <= i < |q.tasks| ==> q.tasks[i].status != Verified
    ensures Unproven(p) ==> Unproven(q)
  {
  }

  // ---- The initial plan ----

  /** The tasks a task-scoped contract covers are bound to it. */
  function Bound(c: Option<Contract>, ts: seq<Task>): (us: seq<Task>)
    ensures |us| == |ts|
    ensures forall i :: 0 <= i < |ts| ==> us[i] == ts[i].(contractBound := ts[i].contractBound || Covers(c, ts[i]))
  {
    seq(|ts|, i requires 0 <= i < |ts| => ts[i].(contractBound := ts[i].contractBound || Covers(c, ts[i])))
  }

  lemma EmptyProjectIsFresh(p: Snapshot, cap: nat)
    requires Sound(p, cap) && p.tasks == []
    ensures Open(p) && p.active == None && p.sessionCount == 0
  {
    SoundFacts(p, cap);
    AccountingMeans(p.tasks, p.sessionCount, cap);
  }

  /** Binding tasks to the contract changes nothing that the invariant speaks of. */
  lemma BindingKeepsSound(contract: Option<Contract>, p: Snapshot, q: Snapshot, cap: nat)
    requires Sound(p, cap) && Open(p) && q == p.(tasks := Bound(contract, p.tasks), planVersion := q.planVersion)
    ensures Sound(q, cap)
    ensures NoFailed(p.tasks) ==> NoFailed(q.tasks)
    ensures Unproven(p) ==> Unproven(q)
  {
    hide Sound;
    SoundFacts(p, cap);
    StatusesDecide(p.tasks, q.tasks, p.active);
    RepaintKeepsSound(p, q, cap);
  }

  lemma PlanningKeepsSound(c: Config, contract: Option<Contract>, p: Snapshot, q: Snapshot, drafts: seq<Draft>,
                           ts: seq<Task>, clock: nat -> int)
    requires Sound(p, c.maxSessionsPerTask) && p.tasks == []
    requires Valid(drafts, None, c.minTasks, c.maxTasks) && ts == PlanTasks(p.projectId, drafts, clock)
    requires q == p.(tasks := Bound(contract, ts), planVersion := q.planVersion)
    ensures Sound(q, c.maxSessionsPerTask) && NoFailed(q.tasks) && (Unproven(p) ==> Unproven(q))
  {
    hide Sound, Valid;
    EmptyProjectIsFresh(p, c.maxSessionsPerTask);
    var mid := p.(tasks := ts);
    PlanIsSound(mid, drafts, c.minTasks, c.maxTasks, clock, c.maxSessionsPerTask);
    BindingKeepsSound(contract, mid, q, c.maxSessionsPerTask);
  }

  /** A planned list has no failed task and the keys of the plan. */
  lemma PlanContinues(w: World, contract: Option<Contract>, project: string, us: seq<Task>, clock: nat -> int)
    requires us == Bound(contract, PlanTasks(project, w.plan, clock))
    ensures Continues(w, [], us)
  {
    hide Offered;
    forall i | 0 <= i < |us|
      ensures us[i].status != Failed && Offered(w, us[i].key)
    {
      KeysOffered(w, 0, w.plan, i);
    }
  }

  /** The tasks of an accepted plan: their keys differ, they have had no session, and all of them wait. */
  lemma PlannedTasksWait(c: Config, contract: Option<Contract>, project: string, drafts: seq<Draft>, clock: nat -> int)
    requires Valid(drafts, None, c.minTasks, c.maxTasks)
    ensures var us := Bound(contract, PlanTasks(project, drafts, clock));
      && |us| == |drafts| && UniqueKeys(us) && (forall i :: 0 <= i < |us| ==> us[i].status == Pending)
      && (1 <= c.maxSessionsPerTask ==> Unhindered(us, c.maxSessionsPerTask) && |Waits(us)| == |drafts|)
  {
    assert UniqueDraftKeys(drafts);
    hide Valid, UniqueDraftKeys, Unhindered, Waits;
    var us := Bound(contract, PlanTasks(project, drafts, clock));
    assert forall i :: 0 <= i < |us| ==> us[i].key == drafts[i].key && us[i].status == Pending && us[i].sessions == [];
    assert UniqueKeys(us) by { KeysOfDrafts(drafts, us); }
    if 1 <= c.maxSessionsPerTask { NewTasksWait(us, c.maxSessionsPerTask); }
  }

  lemma KeysOfDrafts(drafts: seq<Draft>, us: seq<Task>)
    requires UniqueDraftKeys(drafts) && |us| == |drafts| && forall i :: 0 <= i < |us| ==> us[i].key == drafts[i].key
    ensures UniqueKeys(us)
  {
  }

  ghost predicate DiskSound(disk: seq<Snapshot>, cap: nat) {
    forall p :: p in disk ==> Persistable(p, cap)
  }

  class ProjectOrchestrator {
    const config: Config
    const contract: Option<Contract>
    const world: World
    const state: ProjectState
    /** Every snapshot saved so far, the newest last. */
    var disk: seq<Snapshot>
    var tick: nat

    constructor (config: Config, contract: Option<Contract>, world: World, state: ProjectState)
      ensures this.config == config && this.contract == contract && this.world == world && this.state == state
      ensures disk == [] && tick == 0
    {
      this.config, this.contract, this.world, this.state := config, contract, world, state;
      disk, tick := [], 0;
    }

    function Cap(): nat {
      config.maxSessionsPerTask
    }

    ghost predicate Good()
      reads this`disk, state
    {
      Sound(state.Snap(), Cap()) && DiskSound(disk, Cap())
    }

    /** The newest save is of the project as it is. */
    ghost predicate Saved()
      reads this`disk, state
    {
      disk != [] && disk[|disk| - 1] == state.Snap()
    }

    /** Some evidence looked at since then gave the verdict VERIFIED. */
    ghost predicate Passed(since: nat)
      reads this`tick
    {
      PassedBetween(since, tick)
    }

    ghost predicate PassedBetween(since: nat, now: nat) {
      contract.Some? && exists n: nat :: since <= n < now && V.VerdictFor(contract.value.checks, world.evidence(n)) == V.Verified
    }

    /** The project may end a run that began then with the status it has. */
    ghost predicate Ends(since: nat, attempts: nat)
      reads this`tick, state
    {
      Closed(config, contract, world, state.Snap(), since, tick, attempts)
    }

    /** Every session requests completion, there is always time, and complete dependencies are enough. */
    ghost predicate Obliging() {
      && contract.None? && config.policy == CandidateCompletePolicy
      && (forall n: nat :: world.session(n).terminal == Some(CompletionRequest))
      && (forall n: nat :: !world.pastDeadline(n))
    }

    /** The project is under way and nothing hinders its tasks. */
    ghost predicate Startable()
      reads state
    {
      state.status == Active && state.tasks != [] && Unhindered(state.tasks, Cap())
    }

    lemma PassedSince(since: nat, from: nat, middle: nat)
      requires since <= from && middle <= tick
      ensures Passed(from) ==> Passed(since)
      ensures PassedBetween(since, middle) ==> Passed(since)
    {
    }

    /** A save validates the graph first; on a sound project only a repeated key makes it fail. */
    method Save() returns (o: Outcome)
      requires Good()
      modifies this`disk
      ensures Good() && old(disk) <= disk
      ensures o == if UniqueKeys(state.tasks) then Fine else Raised(SaveRefused)
      ensures o.Fine? ==> disk == old(disk) + [state.Snap()] && Saved()
    {
      SaveRefusedOnlyForKeys(state.Snap(), Cap());
      if !ValidGraph(state.tasks, state.active) { return Raised(SaveRefused); }
      disk := disk + [state.Snap()];
      return Fine;
    }

    method PastDeadline() returns (late: bool)
      modifies this`tick
      ensures late == world.pastDeadline(old(tick)) && tick == old(tick) + 1
    {
      late := world.pastDeadline(tick);
      tick := tick + 1;
    }

    method MoveTask(id: TaskId, to: TaskStatus) returns (o: Outcome)
      requires Known(state.tasks, id)
      modifies state`tasks, state`active
      ensures Find(old(state.tasks), id) < |old(state.tasks)|
      ensures o == if Legal(old(state.tasks)[Find(old(state.tasks), id)].status, to) then Fine else Raised(IllegalTransition)
      ensures o.Fine? ==> state.tasks == WithStatus(old(state.tasks), Find(old(state.tasks), id), to)
                          && state.active == ActiveAfter(old(state.active), id, to)
    {
      FindKnown(state.tasks, id);
      var moved := Transition(state, id, to);
      return if moved.Moved? then Fine else Raised(IllegalTransition);
    }

    // ---- Decomposition ----

    /** Asks the decomposer; the drafts it is given stand for its last attempt. */
    method Decompose(k: nat, drafts: seq<Draft>) returns (o: Outcome)
      requires UniqueIds(state.tasks) && k < |state.tasks| && state.tasks[k].status == InProgress
      modifies this`tick, state`tasks, state`active, state`planVersion
      ensures old(tick) <= tick
      ensures o == StepOutcome(old(state.tasks), old(state.tasks)[k], DecomposerStep(config, old(state.tasks)[k], drafts))
      ensures o == Raised(DecompositionFailed) ==> state.Snap() == old(state.Snap())
      ensures o != Raised(DecompositionFailed) ==>
                Took(old(state.Snap()), state.Snap(), k, old(state.tasks)[k], ToChildren(drafts), world.clock(old(tick)))
    {
      hide Valid, ChildTasks, IdsFresh;
      var task := state.tasks[k];
      var valid := ValidateChildren(task.depth, task.objective, drafts, config.minChildren, config.maxChildren, config.maxDepth);
      if !valid.Accepted? { return Raised(DecompositionFailed); }
      var before := state.tasks;
      var children := ChildTasks(task, drafts, world.clock(tick));
      tick := tick + 1;
      state.tasks := state.tasks + children;
      FindInLonger(before, children, k);
      o := MoveTask(task.id, Decomposed);
      state.planVersion := state.planVersion + 1;
      assert before[k := task] == before;
      assert WithStatus(before + children, k, Decomposed) == WithStatus(before, k, Decomposed) + children;
      if !IdsFresh(before, task, drafts) { o := Raised(IdClash); }
    }

    method TriggerDecomposition(k: nat, forced: bool, outcome: SessionOutcome) returns (o: Outcome)
      requires UniqueIds(state.tasks) && k < |state.tasks| && state.tasks[k].status == InProgress
      modifies this`tick, state`tasks, state`active, state`planVersion
      ensures old(tick) <= tick
      ensures var step := DecompositionStep(config, old(state.tasks)[k], forced, outcome);
        && o == StepOutcome(old(state.tasks), old(state.tasks)[k], step)
        && Took(old(state.Snap()), state.Snap(), k, old(state.tasks)[k], step, world.clock(old(tick)))
    {
      FindIndex(state.tasks, k);
      var id := state.tasks[k].id;
      if config.mode == StaticPlan {
        o := MoveTask(id, Blocked);
        return;
      }
      if !forced && config.mode == AdaptiveSearch && config.boundedSearch {
        match outcome.recovery {
          case NoValidCandidate => o := Raised(DecompositionFailed);
          case MarkBlocked => o := MoveTask(id, Blocked);
          case RetryWithGuidance => o := MoveTask(id, Ready);
          case DecomposeInto(drafts) => o := Decompose(k, drafts);
        }
        return;
      }
      o := Decompose(k, outcome.decomposition);
    }

    // ---- A finished session ----

    /** The session ended without a terminal signal. */
    method ProcessSilence(k: nat, outcome: SessionOutcome) returns (o: Outcome)
      requires UniqueIds(state.tasks) && k < |state.tasks| && state.tasks[k].status == InProgress && outcome.terminal.None?
      modifies this`tick, state`tasks, state`active, state`planVersion
      ensures old(tick) <= tick
      ensures var step := SessionStep(config, old(state.tasks)[k], outcome);
        && o == StepOutcome(old(state.tasks), old(state.tasks)[k], step)
        && Took(old(state.Snap()), state.Snap(), k, old(state.tasks)[k], step, world.clock(old(tick)))
    {
      var task := state.tasks[k];
      if outcome.candidate {
        FindIndex(state.tasks, k);
        o := MoveTask(task.id, CandidateComplete);
      } else if NoProgressRequired(config, task) {
        o := TriggerDecomposition(k, true, outcome);
      } else if IsAdaptive(config) && task.attempts >= config.attemptsBeforeDecomposition {
        o := TriggerDecomposition(k, false, outcome);
      } else {
        o := Fine;
      }
    }

    method ProcessTerminal(k: nat, outcome: SessionOutcome) returns (o: Outcome)
      requires UniqueIds(state.tasks) && k < |state.tasks| && state.tasks[k].status == InProgress && outcome.terminal.Some?
      modifies this`tick, state`tasks, state`active, state`planVersion
      ensures old(tick) <= tick
      ensures var step := SessionStep(config, old(state.tasks)[k], outcome);
        && o == StepOutcome(old(state.tasks), old(state.tasks)[k], step)
        && Took(old(state.Snap()), state.Snap(), k, old(state.tasks)[k], step, world.clock(old(tick)))
    {
      var id := state.tasks[k].id;
      FindIndex(state.tasks, k);
      match outcome.terminal.value {
        case CompletionRequest =>
          o := MoveTask(id, CandidateComplete);
        case Blocker(recommended) =>
          if recommended && IsAdaptive(config) {
            o := TriggerDecomposition(k, false, outcome);
          } else {
            o := MoveTask(id, Blocked);
          }
        case DecompositionRequest =>
          if IsAdaptive(config) {
            o := TriggerDecomposition(k, false, outcome);
          } else {
            o := MoveTask(id, Blocked);
          }
      }
    }

    /** Applies what the session reported to its task. */
    method ProcessControlSignals(k: nat, outcome: SessionOutcome) returns (o: Outcome)
      requires UniqueIds(state.tasks) && k < |state.tasks| && state.tasks[k].status == InProgress
      modifies this`tick, state`tasks, state`active, state`planVersion
      ensures old(tick) <= tick
      ensures var t := WithProgress(old(state.tasks)[k], outcome.noProgress);
        var step := SessionStep(config, t, outcome);
        && o == StepOutcome(old(state.tasks), t, step)
        && Took(old(state.Snap()), state.Snap(), k, t, step, world.clock(old(tick)))
      ensures k < |state.tasks|
              && Reported(config, old(state.tasks)[k], outcome, state.tasks[k], |state.tasks| - |old(state.tasks)|, o)
    {
      hide Reported, SessionStep, FreshStep, UniqueIds, Took;
      var task := WithProgress(state.tasks[k], outcome.noProgress);
      ghost var before, clock := state.Snap(), world.clock(tick);
      StillUnique(state.tasks, k, task);
      state.tasks := state.tasks[k := task];
      if outcome.terminal.None? {
        o := ProcessSilence(k, outcome);
      } else {
        o := ProcessTerminal(k, outcome);
      }
      TookAfterUpdate(before, state.Snap(), k, task, SessionStep(config, task, outcome), clock);
      SameFreshStep(before.tasks, k, task, SessionStep(config, task, outcome));
      StepReports(config, before, state.Snap(), k, before.tasks[k], outcome, clock);
    }

    // ---- Verification of one task ----

    method ReopenTask(k: nat) returns (o: Outcome)
      requires UniqueIds(state.tasks) && k < |state.tasks| && state.tasks[k].status == VerificationPending
      modifies state`tasks, state`active
      ensures o == Fine
      ensures state.tasks == old(state.tasks)[k := Reopen(config, old(state.tasks)[k])]
      ensures state.tasks[k].reopens == old(state.tasks)[k].reopens + 1
      ensures state.tasks[k].status == if state.tasks[k].reopens > config.maxTaskReopens then Blocked else Ready
      ensures state.active == if old(state.active) == Some(old(state.tasks)[k].id) then None else old(state.active)
    {
      hide UniqueIds, Find, Known;
      var task := state.tasks[k];
      StillUnique(state.tasks, k, task.(reopens := task.reopens + 1));
      state.tasks := state.tasks[k := task.(reopens := task.reopens + 1)];
      FindIndex(state.tasks, k);
      StillUnique(state.tasks, k, state.tasks[k].(status := TaskStatus.Reopened));
      o := MoveTask(task.id, TaskStatus.Reopened);
      FindIndex(state.tasks, k);
      if state.tasks[k].reopens > config.maxTaskReopens {
        o := MoveTask(task.id, Blocked);
      } else {
        o := MoveTask(task.id, Ready);
      }
    }

    /** The task is waiting for its verdict; the verdict decides its status. */
    method ApplyVerdict(k: nat, verdict: V.Verdict) returns (o: Outcome)
      requires UniqueIds(state.tasks) && k < |state.tasks| && state.tasks[k].status == VerificationPending
      modifies state`tasks, state`active
      ensures o == Fine
      ensures state.tasks == old(state.tasks)[k := Judged(config, old(state.tasks)[k], verdict)]
      ensures Sentenced(config, old(state.tasks)[k], state.tasks[k], verdict)
      ensures state.active == if old(state.active) == Some(old(state.tasks)[k].id) then None else old(state.active)
    {
      hide Sentenced, UniqueIds, Known;
      JudgedIsSentenced(config, state.tasks[k], verdict);
      var task := state.tasks[k].(verificationAttempts := state.tasks[k].verificationAttempts + 1, mark := VerdictMark(verdict));
      StillUnique(state.tasks, k, task);
      state.tasks := state.tasks[k := task];
      FindIndex(state.tasks, k);
      match verdict {
        case Verified => o := MoveTask(task.id, TaskStatus.Verified);
        case Partial | Reopened => o := ReopenTask(k);
        case InfrastructureError | Inconclusive | ContractInvalid => o := MoveTask(task.id, Blocked);
      }
    }

    method VerifyTaskCandidate(k: nat) returns (o: Outcome, verified: bool)
      requires UniqueIds(state.tasks) && k < |state.tasks|
      modifies this`tick, state`tasks, state`active
      ensures o == Fine && tick == old(tick) + if verified then 1 else 0
      ensures verified <==> AwaitsVerification(contract, old(state.tasks)[k])
      ensures verified <==>
                var t := old(state.tasks)[k];
                && contract.Some? && contract.value.scope.TaskScope?
                && (contract.value.scope.taskId == Some(t.id) || contract.value.scope.taskKey == Some(t.key))
                && (t.status == CandidateComplete || (t.status == Blocked && t.mark == VerdictMark(V.InfrastructureError)))
      ensures !verified ==> state.Snap() == old(state.Snap())
      ensures verified ==> var v := V.VerdictFor(contract.value.checks, world.evidence(old(tick)));
        && state.tasks == old(state.tasks)[k := Judged(config, old(state.tasks)[k], v)]
        && Sentenced(config, old(state.tasks)[k], state.tasks[k], v)
        && state.active == if old(state.active) == Some(old(state.tasks)[k].id) then None else old(state.active)
    {
      hide UniqueIds, Find, Known, Judged, Sentenced;
      var task := state.tasks[k];
      if !AwaitsVerification(contract, task) { return Fine, false; }
      verified := true;
      FindIndex(state.tasks, k);
      StillUnique(state.tasks, k, task.(status := VerificationPending));
      o := MoveTask(task.id, VerificationPending);
      var report := V.Verify(contract.value.checks, world.evidence(tick));
      JudgedWhileWaiting(config, task, report.verdict);
      JudgedIsSentenced(config, task, report.verdict);
      tick := tick + 1;
      o := ApplyVerdict(k, report.verdict);
    }

    // ---- Verification of the project ----

    method MarkProjectTasksVerified() returns (o: Outcome)
      requires UniqueIds(state.tasks)
      modifies state`tasks, state`active
      ensures o == Fine && AllMarkedVerified(old(state.tasks), state.tasks)
      ensures state.active == old(state.active) || state.active == None
    {
      var ts := state.tasks;
      for i := 0 to |ts|
        invariant |state.tasks| == |ts|
        invariant forall j :: 0 <= j < |ts| ==> state.tasks[j] == if j < i then MarkVerified(ts, ts[j]) else ts[j]
        invariant state.active == old(state.active) || state.active == None
      {
        if IsLeaf(ts, ts[i]) && ts[i].status == CandidateComplete {
          o := VerifyLeaf(i);
        }
      }
      o := Fine;
    }

    method VerifyLeaf(k: nat) returns (o: Outcome)
      requires UniqueIds(state.tasks) && k < |state.tasks| && state.tasks[k].status == CandidateComplete
      modifies state`tasks, state`active
      ensures o == Fine
      ensures state.tasks == old(state.tasks)[k := old(state.tasks)[k].(status := Verified, mark := VerdictMark(V.Verified))]
      ensures state.active == Cleared(old(state.active), old(state.tasks)[k].id)
    {
      var id := state.tasks[k].id;
      FindIndex(state.tasks, k);
      o := MoveTask(id, VerificationPending);
      FindIndex(state.tasks, k);
      o := MoveTask(id, TaskStatus.Verified);
      state.tasks := state.tasks[k := state.tasks[k].(mark := VerdictMark(V.Verified))];
    }

    method ReopenRelevantProjectTask() returns (o: Outcome)
      requires UniqueIds(state.tasks)
      modifies state`tasks, state`active
      ensures o == Fine
      ensures LeavesComplete(old(state.tasks)) ==> LastReopened(config, old(state.Snap()), state.Snap())
      ensures (forall k: nat :: !LastCompleteLeaf(old(state.tasks), k)) ==> state.Snap() == old(state.Snap())
    {
      var k := |state.tasks|;
      while k > 0
        invariant 0 <= k <= |state.tasks| && state.Snap() == old(state.Snap())
        invariant forall j :: k <= j < |state.tasks| ==> !(IsLeaf(state.tasks, state.tasks[j]) && Complete(state.tasks[j].status))
      {
        k := k - 1;
        if IsLeaf(state.tasks, state.tasks[k]) && Complete(state.tasks[k].status) {
          assert LastCompleteLeaf(state.tasks, k);
          o := ReopenLeaf(k);
          return;
        }
      }
      return Fine;
    }

    method ReopenLeaf(k: nat) returns (o: Outcome)
      requires UniqueIds(state.tasks) && k < |state.tasks| && Complete(state.tasks[k].status)
      modifies state`tasks, state`active
      ensures o == Fine
      ensures state.tasks == old(state.tasks)[k := Reopen(config, old(state.tasks)[k])]
      ensures state.tasks[k].reopens == old(state.tasks)[k].reopens + 1
      ensures state.tasks[k].status == if state.tasks[k].reopens > config.maxTaskReopens then Blocked else Ready
      ensures state.active == Cleared(old(state.active), old(state.tasks)[k].id)
    {
      hide UniqueIds, Find, Known;
      var task := state.tasks[k];
      if task.status == Verified {
        StillUnique(state.tasks, k, task.(status := CandidateComplete));
        state.tasks := state.tasks[k := task.(status := CandidateComplete)];
      }
      FindIndex(state.tasks, k);
      StillUnique(state.tasks, k, state.tasks[k].(status := VerificationPending));
      o := MoveTask(task.id, VerificationPending);
      o := ReopenTask(k);
    }

    /** Runs the project contract, if there is one and attempts are left, and acts on the verdict. */
    method CheckProject() returns (o: Outcome)
      requires UniqueIds(state.tasks) && LeavesComplete(state.tasks) && IsProjectContract(contract)
      modifies this`tick, state`tasks, state`active, state`status, state`report, state`verificationAttempts
      ensures o == Fine && tick == old(tick) + 1
      ensures Checked(config, old(state.Snap()), state.Snap(), V.VerdictFor(contract.value.checks, world.evidence(old(tick))))
    {
      hide LeavesComplete, UniqueIds, AllMarkedVerified, LastCompleteLeaf, Reopen;
      state.status := ProjectVerificationPending;
      state.verificationAttempts := state.verificationAttempts + 1;
      var report := V.Verify(contract.value.checks, world.evidence(tick));
      tick := tick + 1;
      state.report := Some(report);
      match report.verdict {
        case Verified =>
          o := MarkProjectTasksVerified();
          state.status := ProjectVerified;
        case Partial =>
          state.status := PartiallyVerified;
          o := ReopenRelevantProjectTask();
        case Reopened =>
          state.status := Active;
          o := ReopenRelevantProjectTask();
        case InfrastructureError =>
          state.status := ProjectVerificationPending;
          o := Fine;
        case Inconclusive | ContractInvalid =>
          state.status := VerificationInconclusive;
          o := Fine;
      }
    }

    method FinalizeContractVerification() returns (o: Outcome)
      requires Good() && LeavesComplete(state.tasks)
      modifies this`disk, this`tick, state`tasks, state`active, state`status, state`report, state`verificationAttempts
      ensures Good() && old(disk) <= disk
      ensures o == if UniqueKeys(state.tasks) then Fine else Raised(SaveRefused)
      ensures state.status == Active ==> !LeavesComplete(state.tasks)
      ensures state.status != SessionLimitReached
      ensures old(tick) <= tick && (Unproven(old(state.Snap())) ==> Unproven(state.Snap()) || Passed(old(tick)))
      ensures Finalized(config, contract, old(state.Snap()), state.Snap(), world.evidence(old(tick)))
      ensures Continues(world, old(state.tasks), state.tasks)
      ensures o.Fine? ==> Saved()
      ensures config.contractMode || IsProjectContract(contract) ==>
                Ends(old(tick), old(state.verificationAttempts)) && state.verificationAttempts >= old(state.verificationAttempts)
      ensures contract.None? ==> state.tasks == old(state.tasks)
    {
      hide Sound, Persistable, Unproven, LeavesComplete, UniqueKeys, UniqueIds, Checked, Continues, Closed;
      ghost var since := tick;
      ghost var before, evidence := state.Snap(), world.evidence(tick);
      SoundFacts(before, Cap());
      if !IsProjectContract(contract) {
        state.status := if config.requireProjectContract then VerificationInconclusive else ProjectCandidateComplete;
      } else if state.verificationAttempts >= config.maxProjectVerificationAttempts {
        state.status := VerificationInconclusive;
      } else {
        o := CheckProject();
      }
      FinalizedKeepsSound(config, contract, before, state.Snap(), evidence);
      FinalizedKeepsFailures(world, config, contract, before, state.Snap(), evidence);
      if Unproven(before) { FinalizedLeavesUnproven(config, contract, before, state.Snap(), evidence); }
      if state.status == Active { FinalizedHasWork(config, contract, before, state.Snap(), evidence); }
      if config.contractMode || IsProjectContract(contract) {
        FinalizedCloses(config, contract, world, before, state.Snap(), evidence, since, tick);
      }
      o := Save();
    }

    method FinalizeCandidateComplete() returns (o: Outcome)
      requires Good() && LeavesComplete(state.tasks)
      modifies this`disk, this`tick, state`tasks, state`active, state`status, state`report, state`verificationAttempts
      ensures Good() && old(disk) <= disk
      ensures o == if UniqueKeys(state.tasks) then Fine else Raised(SaveRefused)
      ensures state.status == Active ==> !LeavesComplete(state.tasks)
      ensures state.status != SessionLimitReached
      ensures old(tick) <= tick && (Unproven(old(state.Snap())) ==> Unproven(state.Snap()) || Passed(old(tick)))
      ensures config.contractMode ==> Finalized(config, contract, old(state.Snap()), state.Snap(), world.evidence(old(tick)))
      ensures !config.contractMode ==> state.Snap() == old(state.Snap()).(status :=
        if config.finalCommand && !world.finalCommandPasses(old(tick)) then ProjectFailed else ProjectCandidateComplete)
      ensures Continues(world, old(state.tasks), state.tasks)
      ensures o.Fine? ==> Saved()
      ensures Ends(old(tick), old(state.verificationAttempts)) && state.verificationAttempts >= old(state.verificationAttempts)
      ensures contract.None? ==> state.tasks == old(state.tasks)
    {
      hide Closed, Sound, Persistable, LeavesComplete, UniqueKeys, Finalized, Continues, DiskSound;
      ContinuesItself(world, state.tasks);
      if config.contractMode {
        o := FinalizeContractVerification();
        return;
      }
      ghost var before := state.Snap();
      state.status := if config.finalCommand && !world.finalCommandPasses(tick) then ProjectFailed else ProjectCandidateComplete;
      CommandCloses(config, contract, world, state.Snap(), tick);
      tick := tick + 1;
      EarnedKeepsSound(before, state.Snap(), Cap());
      o := Save();
    }

    // ---- The run ----

    method MarkTimeLimit() returns (o: Outcome)
      requires Good()
      modifies this`disk, state`status
      ensures Good() && old(disk) <= disk && state.Snap() == old(state.Snap()).(status := TimeLimitReached)
      ensures Unproven(old(state.Snap())) ==> Unproven(state.Snap())
      ensures o == if UniqueKeys(state.tasks) then Fine else Raised(SaveRefused)
      ensures o.Raised? ==> Explained(o.cause)
      ensures o.Fine? ==> Saved()
    {
      ghost var before := state.Snap();
      state.status := TimeLimitReached;
      OpeningKeepsSound(before, state.Snap(), Cap());
      o := Save();
    }

    /** Both aggregations, then the selector. */
    method AggregateAndSelect() returns (r: Selection)
      requires Good()
      modifies state`tasks, state`active, state`status
      ensures Good() && !r.SeveralInProgress? && state.sessionCount == old(state.sessionCount)
      ensures r.NoReachableTask? <==> NothingMoves(state.tasks) && StuckBehindFailure(config.policy, state.tasks)
      ensures r.Picked? ==> PickedAt(state.tasks, r, Find(state.tasks, r.id)) && Foremost(state.tasks, Find(state.tasks, r.id))
      ensures r.Picked? ==> state.status == old(state.status)
      ensures r.Nothing? ==> SelectorStops(old(state.Snap()), state.Snap())
      ensures LeafReopenFree(CandidateRule, old(state.tasks)) ==> ReleasedBehindLeaves(old(state.tasks), state.tasks)
      ensures config.policy == CandidateCompletePolicy && old(state.tasks) != [] && Unhindered(old(state.tasks), Cap()) ==>
                && Served(old(state.tasks), state.tasks) && Waits(state.tasks) == Waits(old(state.tasks))
                && if Waits(old(state.tasks)) != {} then r.Picked? && state.status == old(state.status)
                   else r.Nothing? && state.status == ProjectCandidateComplete && LeavesComplete(state.tasks)
      ensures Continues(world, old(state.tasks), state.tasks)
      ensures Unproven(old(state.Snap())) ==> Unproven(state.Snap())
    {
      hide *;
      Current();
      ghost var p := state.Snap();
      SoundFacts(p, Cap());
      var promoted := AggregateParents(state, CandidateRule);
      Current();
      ghost var p1 := state.Snap();
      AggregationKeepsSound(CandidateRule, p, p1, Cap());
      SoundFacts(p1, Cap());
      promoted := AggregateParents(state, VerifiedRule);
      Current();
      ghost var p2 := state.Snap();
      AggregationKeepsSound(VerifiedRule, p1, p2, Cap());
      SoundFacts(p2, Cap());
      r := SelectNext(state, config.policy);
      Current();
      ghost var q := state.Snap();
      SelectionKeepsSound(config.policy, p2, q, r, Cap());
      SoundFacts(q, Cap());
      SelectionStuck(config.policy, p, Cap(), p1.tasks, p2, q, r);
      RunningIsPicked(config.policy, p2, q, r);
      if r.Picked? {
        PickedHasPlace(config.policy, p2, q, r);
        ForemostHasPlace(q.tasks, r);
      }
      SelectionStops(config.policy, p2, q, r);
      SelectorStopsBefore(p, p2, q);
      if LeafReopenFree(CandidateRule, p.tasks) { SelectionWaitsForLeaves(config.policy, p, Cap(), p1.tasks, p2, q, r); }
      if config.policy == CandidateCompletePolicy && p.tasks != [] && Unhindered(p.tasks, Cap()) {
        SelectionServes(p, Cap(), p1.tasks, p2, q, r);
      }
      PromotesOnly(CandidateRule, p.tasks, p1.tasks);
      PromotesOnly(VerifiedRule, p1.tasks, p2.tasks);
      SelectionKeepsFailures(world, config.policy, p.tasks, p1.tasks, p2, q, r);
      if Unproven(p) { SelectionLeavesUnproven(config.policy, p, p1.tasks, p2, q, r); }
    }

    /** A ready task is moved into progress; a task in progress stays there. */
    method StartTask(k: nat) returns (o: Outcome)
      requires Good() && k < |state.tasks|
      requires state.tasks[k].status == Ready || state.tasks[k].status == InProgress
      requires state.tasks[k].status == Ready ==> !AnyWith(state.tasks, InProgress)
      modifies state`tasks, state`active
      ensures o == Fine && Good() && Open(state.Snap())
      ensures state.tasks == WithStatus(old(state.tasks), k, InProgress)
    {
      ghost var p := state.Snap();
      SoundFacts(p, Cap());
      UnfinishedLeafMeansOpen(p, Cap(), p.tasks[k]);
      if state.tasks[k].status == InProgress {
        assert state.tasks == WithStatus(state.tasks, k, InProgress);
        return Fine;
      }
      FindIndex(state.tasks, k);
      o := MoveTask(state.tasks[k].id, InProgress);
      RetaskKeepsSound(p, state.Snap(), Cap(), k, state.tasks[k]);
    }

    /** The next session of the project is given to the task. */
    method OpenSession(k: nat) returns (o: Outcome)
      requires Good() && k < |state.tasks| && |state.tasks[k].sessions| < Cap()
      requires state.tasks[k].status == Ready || state.tasks[k].status == InProgress
      requires state.tasks[k].status == Ready ==> !AnyWith(state.tasks, InProgress)
      modifies state`tasks, state`active, state`sessionCount
      ensures o == Fine && Good() && Open(state.Snap())
      ensures state.sessionCount == old(state.sessionCount) + 1
      ensures state.tasks == old(state.tasks)[k := WithSession(old(state.tasks)[k].(status := InProgress), state.sessionCount)]
      ensures Continues(world, old(state.tasks), state.tasks)
      ensures Unproven(old(state.Snap())) ==> Unproven(state.Snap())
    {
      hide Sound, Persistable;
      o := StartTask(k);
      ghost var q := state.Snap();
      state.sessionCount := state.sessionCount + 1;
      state.tasks := state.tasks[k := WithSession(state.tasks[k], state.sessionCount)];
      SessionKeepsSound(q, state.Snap(), Cap(), k);
    }

    /** Why a run may end with an error. */
    ghost predicate Explained(cause: Cause)
      reads state
    {
      match cause
      case IllegalTransition => false
      case SaveRefused => !UniqueKeys(state.tasks)
      case PlanFailed => !Valid(world.plan, None, config.minTasks, config.maxTasks)
      case DecompositionFailed =>
        exists k :: 0 <= k < |state.tasks| && state.tasks[k].status == InProgress && GivenUp(config, world, state.tasks[k])
      case IdClash => !UniqueIds(state.tasks)
      case ActiveLost => !OneActive(state.tasks, state.active)
      case SelectorFailed(r) => r.NoReachableTask? && StuckBehindFailure(config.policy, state.tasks)
    }

    /** A session or a repair ends a run only by giving a task up, or with two tasks that have one id. */
    ghost predicate Abandoned(cause: Cause)
      reads state
    {
      (cause == DecompositionFailed || cause == IdClash) && Explained(cause)
    }

    lemma AbandonedBecause(o: Outcome, k: nat)
      requires o == Fine || o == Raised(DecompositionFailed) || o == Raised(IdClash)
      requires o == Raised(DecompositionFailed) ==>
                 k < |state.tasks| && state.tasks[k].status == InProgress && GivenUp(config, world, state.tasks[k])
      requires o == Raised(IdClash) ==> !UniqueIds(state.tasks)
      ensures o.Raised? ==> Abandoned(o.cause)
    {
      hide GivenUp, UniqueIds;
    }

    /** The session runs and its signals are applied; only a failed decomposition raises. */
    method RunSession(k: nat) returns (o: Outcome)
      requires ValidConfig(config)
      requires Good() && Open(state.Snap()) && k < |state.tasks| && state.tasks[k].status == InProgress
      modifies this`tick, state`tasks, state`active, state`planVersion
      ensures old(tick) <= tick
      ensures o.Raised? ==> Abandoned(o.cause)
      ensures Plain(world, old(state.tasks)) ==> o != Raised(IdClash)
      ensures o.Fine? ==> Good() && Open(state.Snap())
      ensures o.Fine? ==> k < |state.tasks| && (IsLeaf(state.tasks, state.tasks[k]) || state.tasks[k].status == Decomposed)
      ensures o.Fine? ==> Continues(world, old(state.tasks), state.tasks)
      ensures o.Fine? && Unproven(old(state.Snap())) ==> Unproven(state.Snap())
      ensures k < |state.tasks| && Reported(config, old(state.tasks)[k], world.session(state.sessionCount), state.tasks[k],
                                            |state.tasks| - |old(state.tasks)|, o)
      ensures world.session(state.sessionCount).terminal == Some(CompletionRequest) ==>
                o == Fine && CompletedAt(old(state.tasks), state.tasks, k)
    {
      hide *;
      Current();
      ghost var p, clock, n := state.Snap(), world.clock(tick), state.sessionCount;
      SoundFacts(p, Cap());
      RunningIsNoParent();
      UnfinishedLeafMeansOpen(p, Cap(), p.tasks[k]);
      var outcome := world.session(state.sessionCount);
      ghost var t := WithProgress(state.tasks[k], outcome.noProgress);
      ProgressKeepsTask(p.tasks, k, outcome.noProgress);
      o := ProcessControlSignals(k, outcome);
      Current();
      ghost var step := SessionStep(config, t, outcome);
      if outcome.terminal == Some(CompletionRequest) { RequestCompletes(config, p, state.Snap(), k, outcome, clock); }
      SessionStepIsSafe(config, t, outcome);
      StepOutcomeMeans(p.tasks, t, step);
      if step.GiveUp? {
        GiveUpIsExplained(config, world, p, state.Snap(), k, t, n, clock);
      } else {
        TookKeepsSound(config, p, state.Snap(), k, t, step, clock);
        TookLeaf(config, p, state.Snap(), k, t, step, clock);
        ChildKeysOffered(world, config, t, n);
        TookKeepsFailures(world, config, p, state.Snap(), k, t, step, clock);
      }
      AbandonedBecause(o, k);
      if Plain(world, p.tasks) { PlainStepIsFresh(config, world, p, Cap(), k, t, n); }
    }

    /** Verification of one task between two steps of a run. */
    method VerifyTask(k: nat) returns (o: Outcome, verified: bool)
      requires Good() && Open(state.Snap()) && k < |state.tasks|
      requires IsLeaf(state.tasks, state.tasks[k]) || !AwaitsVerification(contract, state.tasks[k])
      modifies this`tick, state`tasks, state`active
      ensures o == Fine && Good() && Open(state.Snap()) && |state.tasks| == |old(state.tasks)| && old(tick) <= tick
      ensures verified <==> AwaitsVerification(contract, old(state.tasks)[k])
      ensures verified ==> RetriedAs(old(state.tasks)[k], state.tasks[k]) && state.tasks == old(state.tasks)[k := state.tasks[k]]
      ensures verified ==> tick == old(tick) + 1 && contract.Some?
                           && Sentenced(config, old(state.tasks)[k], state.tasks[k], V.VerdictFor(contract.value.checks, world.evidence(old(tick))))
      ensures verified ==> state.tasks[k].status != CandidateComplete
      ensures !verified ==> state.tasks == old(state.tasks)
      ensures Continues(world, old(state.tasks), state.tasks)
      ensures Unproven(old(state.Snap())) ==> Unproven(state.Snap()) || Passed(old(tick))
    {
      hide Sound, Persistable, Unproven, Judged, Sentenced;
      ghost var p := state.Snap();
      SoundFacts(p, Cap());
      ghost var v := if contract.Some? then V.VerdictFor(contract.value.checks, world.evidence(tick)) else V.Inconclusive;
      o, verified := VerifyTaskCandidate(k);
      if verified {
        JudgedKeepsSound(config, p, state.Snap(), k, v);
        JudgedKeepsFailures(world, config, p, state.Snap(), k, v);
        if v == V.Verified { assert Passed(old(tick)); }
      }
    }

    /** Asks the planner, marks the tasks the contract covers, and saves. */
    method CreateInitialPlan() returns (o: Outcome)
      requires Good() && state.tasks == []
      modifies this`disk, this`tick, state`tasks, state`planVersion
      ensures old(disk) <= disk && old(tick) <= tick && Good()
      ensures o.Raised? ==> !o.cause.SelectorFailed? && Explained(o.cause)
      ensures o != Raised(IdClash) && o != Raised(ActiveLost)
      ensures NoFailed(state.tasks) && (Unproven(old(state.Snap())) ==> Unproven(state.Snap()))
      ensures o == Raised(PlanFailed) <==> !Valid(world.plan, None, config.minTasks, config.maxTasks)
      ensures o == Raised(PlanFailed) ==> state.Snap() == old(state.Snap())
      ensures o != Raised(PlanFailed) ==> Continues(world, [], state.tasks)
      ensures o == Fine || o == Raised(PlanFailed)
      ensures o != Raised(PlanFailed) ==>
                && state.tasks == Bound(contract, PlanTasks(state.projectId, world.plan, world.clock(old(tick))))
                && state.planVersion == old(state.planVersion) + 1 && (o.Fine? ==> Saved())
    {
      hide Sound, Persistable, Valid;
      ghost var p := state.Snap();
      var valid := ValidateInitial(world.plan, config.minTasks, config.maxTasks);
      if !valid.Accepted? { return Raised(PlanFailed); }
      var tasks := PlanTasks(state.projectId, world.plan, world.clock(tick));
      tick := tick + 1;
      state.tasks := Bound(contract, tasks);
      state.planVersion := state.planVersion + 1;
      PlanningKeepsSound(config, contract, p, state.Snap(), world.plan, tasks, world.clock(tick - 1));
      PlanContinues(world, contract, state.projectId, state.tasks, world.clock(tick - 1));
      PlannedTasksWait(config, contract, state.projectId, world.plan, world.clock(tick - 1));
      o := Save();
    }

    /** The tasks that wait for another verification were judged by some verdict, the others are as they were. */
    ghost predicate Retried(before: seq<Task>, now: seq<Task>, n: nat) {
      |now| == |before| && forall i :: 0 <= i < |before| ==>
        if i < n && before[i].status == Blocked && AwaitsVerification(contract, before[i]) then RetriedAs(before[i], now[i])
        else now[i] == before[i]
    }

    ghost predicate RetriedAs(was: Task, now: Task) {
      exists v: V.Verdict :: now == Judged(config, was, v)
    }

    lemma RetriedNone(ts: seq<Task>)
      ensures Retried(ts, ts, 0)
    {
    }

    /** Task `k` was verified again if it had to be. */
    lemma RetriedOneMore(before: seq<Task>, now: seq<Task>, k: nat, after: seq<Task>)
      requires Retried(before, now, k) && k < |now|
      requires if now[k].status == Blocked && AwaitsVerification(contract, now[k])
               then |after| == |now| && RetriedAs(now[k], after[k]) && after == now[k := after[k]]
               else after == now
      ensures Retried(before, after, k + 1)
    {
      hide RetriedAs;
    }

    /** Tasks blocked by an infrastructure error get another verification when the run starts. */
    method RetryInfrastructure() returns (o: Outcome)
      requires Good()
      modifies this`tick, state`tasks, state`active
      ensures o == Fine && Good() && old(tick) <= tick
      ensures Continues(world, old(state.tasks), state.tasks)
      ensures Unproven(old(state.Snap())) ==> Unproven(state.Snap()) || Passed(old(tick))
      ensures Retried(old(state.tasks), state.tasks, |old(state.tasks)|)
    {
      hide *;
      Current();
      ghost var before, since := state.tasks, tick;
      ContinuesItself(world, before);
      RetriedNone(before);
      var k := 0;
      while k < |state.tasks|
        invariant Good() && old(tick) <= tick && disk == old(disk) && k <= |state.tasks|
        invariant Retried(before, state.tasks, k) && |state.tasks| == |before|
        invariant Continues(world, old(state.tasks), state.tasks)
        invariant Unproven(old(state.Snap())) ==> Unproven(state.Snap()) || Passed(old(tick))
        decreases |state.tasks| - k
      {
        Current();
        var task := state.tasks[k];
        ghost var now, from := state.tasks, tick;
        if task.status == Blocked { BlockedAwaits(contract, task); }
        if task.status == Blocked && task.mark == VerdictMark(V.InfrastructureError) {
          UnfinishedLeafMeansOpen(state.Snap(), Cap(), task);
          var verified;
          o, verified := VerifyTask(k);
          ContinuesFurther(world, before, now, state.tasks);
          Current();
          PassedSince(since, from, from);
        }
        RetriedOneMore(before, now, k, state.tasks);
        k := k + 1;
      }
      o := Fine;
    }

    /** The picked task has used up its sessions. */
    method FailTask(k: nat) returns (o: Outcome)
      requires Good() && k < |state.tasks| && (state.tasks[k].status == Ready || state.tasks[k].status == InProgress)
      modifies this`disk, state`tasks, state`active, state`status
      ensures old(disk) <= disk && Good()
      ensures o == if UniqueKeys(state.tasks) then Fine else Raised(SaveRefused)
      ensures state.tasks == WithStatus(old(state.tasks), k, Failed) && state.status == ProjectFailed
      ensures old(state.tasks[k]).status == InProgress || !AnyWith(old(state.tasks), InProgress) ==> !AnyWith(state.tasks, InProgress)
      ensures Unproven(old(state.Snap())) ==> Unproven(state.Snap())
      ensures o.Fine? ==> Saved()
    {
      hide *;
      Current();
      ghost var p := state.Snap();
      SoundFacts(p, Cap());
      MayFail(p.tasks[k]);
      UnfinishedLeafMeansOpen(p, Cap(), p.tasks[k]);
      FindIndex(state.tasks, k);
      o := MoveTask(state.tasks[k].id, Failed);
      state.status := ProjectFailed;
      Current();
      FailureKeepsSound(p, state.Snap(), Cap(), k);
      if p.tasks[k].status == InProgress || !AnyWith(p.tasks, InProgress) { FailedLeavesNoneRunning(p.tasks, k, p.active); }
      o := Save();
    }

    /** One session of task `k` and the verification of what it left. */
    method RunAndVerify(k: nat) returns (o: Outcome, verified: bool)
      requires ValidConfig(config)
      requires Good() && k < |state.tasks| && |state.tasks[k].sessions| < Cap()
      requires state.tasks[k].status == Ready || state.tasks[k].status == InProgress
      requires state.tasks[k].status == Ready ==> !AnyWith(state.tasks, InProgress)
      modifies this`tick, state`tasks, state`active, state`sessionCount, state`planVersion
      ensures old(tick) <= tick && state.sessionCount == old(state.sessionCount) + 1
      ensures o.Raised? ==> Abandoned(o.cause)
      ensures Plain(world, old(state.tasks)) ==> o != Raised(IdClash)
      ensures o.Fine? ==> Good()
      ensures o.Fine? ==> k < |state.tasks| && (Covers(contract, state.tasks[k]) ==> state.tasks[k].status != CandidateComplete)
      ensures o.Fine? && IsProjectContract(contract) ==> !verified
      ensures o.Fine? ==> Continues(world, old(state.tasks), state.tasks)
      ensures o.Fine? && Unproven(old(state.Snap())) ==> Unproven(state.Snap()) || Passed(old(tick))
      ensures contract.None? && world.session(state.sessionCount).terminal == Some(CompletionRequest) ==>
                o == Fine && !verified && CompletedAt(old(state.tasks), state.tasks, k)
      ensures o.Fine? ==> WorkedOn(config, contract, world, old(state.tasks), state.tasks, k, state.sessionCount, old(tick), tick)
    {
      hide *;
      verified := false;
      ghost var before, since := state.tasks, tick;
      o := OpenSession(k);
      ghost var begun := state.tasks;
      if Plain(world, before) { PlainLater(world, before, begun); }
      OpenedRuns(before[k], state.sessionCount);
      o := RunSession(k);
      if o.Fine? {
        ghost var worked, middle := state.tasks, tick;
        AwaitingMeans(contract, worked[k]);
        o, verified := VerifyTask(k);
        WorkIsDone(config, contract, world, before, worked, state.tasks, k, state.sessionCount, since, middle, tick);
        ContinuesFurther(world, before, begun, worked);
        ContinuesFurther(world, before, worked, state.tasks);
        CompletedWhenOpened(before, begun, worked, k, state.sessionCount);
        PassedSince(since, middle, middle);
        AwaitingMeans(contract, state.tasks[k]);
        }
    }

    /** A session with its verifications; `attempted` says whether the project contract was due. */
    method WorkOn(k: nat) returns (o: Outcome, attempted: bool)
      requires ValidConfig(config)
      requires Good() && k < |state.tasks| && |state.tasks[k].sessions| < Cap()
      requires state.tasks[k].status == Ready || state.tasks[k].status == InProgress
      requires state.tasks[k].status == Ready ==> !AnyWith(state.tasks, InProgress)
      modifies this`disk, this`tick, state
      ensures old(disk) <= disk && old(tick) <= tick && DiskSound(disk, Cap())
      ensures state.sessionCount == old(state.sessionCount) + 1
      ensures o.Fine? ==> Good() && Continues(world, old(state.tasks), state.tasks)
      ensures o.Fine? && Unproven(old(state.Snap())) ==> Unproven(state.Snap()) || Passed(old(tick))
      ensures o.Fine? && !attempted && IsProjectContract(contract) ==> !LeavesComplete(state.tasks)
      ensures o.Raised? ==> !o.cause.SelectorFailed? && Explained(o.cause)
      ensures o != Raised(ActiveLost) && (Plain(world, old(state.tasks)) ==> o != Raised(IdClash))
      ensures o.Fine? ==> Saved()
      ensures o.Fine? && !attempted ==> WorkedOn(config, contract, world, old(state.tasks), state.tasks, k, state.sessionCount, old(tick), tick)
      ensures !attempted ==> state.status == old(state.status) && state.verificationAttempts == old(state.verificationAttempts)
      ensures attempted ==> Ends(old(tick), old(state.verificationAttempts))
                            && state.verificationAttempts >= old(state.verificationAttempts)
      ensures Obliging() && UniqueKeys(old(state.tasks)) ==>
                o == Fine && !attempted && CompletedAt(old(state.tasks), state.tasks, k)
    {
      hide Sound, Persistable, Unproven, NoFailed, Continues, Plain, GivenUp, UniqueKeys, Closed, CompletedAt, Finalized;
      hide LeavesComplete, Covers, AnyWith, DiskSound, WorkedOn;
      ghost var before := state.tasks;
      ghost var since, attempts := tick, state.verificationAttempts;
      var verified;
      o, verified := RunAndVerify(k);
      attempted := o.Fine? && !verified && IsProjectContract(contract) && LeavesComplete(state.tasks);
      if attempted {
        ghost var worked := state.tasks;
        ghost var from := tick;
        o := FinalizeContractVerification();
        ContinuesFurther(world, before, worked, state.tasks);
        ClosedSince(config, contract, world, state.Snap(), since, from, tick, attempts, attempts);
      }
      if CompletedAt(before, state.tasks, k) { CompletedKeepsKeys(before, state.tasks, k); }
      if o.Fine? { o := Save(); }
    }

    /** The selector found nothing to work on. */
    method NothingToDo() returns (o: Outcome)
      requires Good() && Saved()
      modifies this`disk, this`tick, state`tasks, state`active, state`status, state`report, state`verificationAttempts
      ensures old(disk) <= disk && old(tick) <= tick && Good()
      ensures o.Raised? ==> o.cause == SaveRefused && !UniqueKeys(state.tasks)
      ensures Unproven(old(state.Snap())) ==> Unproven(state.Snap()) || Passed(old(tick))
      ensures Continues(world, old(state.tasks), state.tasks)
      ensures o.Fine? ==> Saved()
      ensures old(state.status) == ProjectCandidateComplete ==>
                && Ends(old(tick), old(state.verificationAttempts)) && state.verificationAttempts >= old(state.verificationAttempts)
                && (state.status == Active ==> !LeavesComplete(state.tasks)) && (contract.None? ==> state.tasks == old(state.tasks))
      ensures old(state.status) != ProjectCandidateComplete ==> state.Snap() == old(state.Snap())
    {
      hide Sound, Persistable, UniqueKeys, Finalized, Continues, Closed, LeavesComplete;
      ContinuesItself(world, state.tasks);
      ghost var p := state.Snap();
      SoundFacts(p, Cap());
      if state.status == ProjectCandidateComplete {
        state.status := Active;
        OpeningKeepsSound(p, state.Snap(), Cap());
        o := FinalizeCandidateComplete();
      } else if state.status == ProjectBlocked {
        o := Save();
      } else {
        o := Fine;
      }
    }

    /** The run ended with a failed task and nothing runs. */
    predicate FailedQuietly()
      reads state
    {
      state.status == ProjectFailed && !AnyWith(state.tasks, InProgress)
    }

    /** The picked task fails if it has used up its sessions, and is worked on otherwise; `done` says that the loop ends. */
    method TakeUp(k: nat) returns (o: Outcome, done: bool)
      requires ValidConfig(config) && Good() && k < |state.tasks|
      requires state.tasks[k].status == Ready || state.tasks[k].status == InProgress
      requires state.tasks[k].status == Ready ==> !AnyWith(state.tasks, InProgress)
      modifies this`disk, this`tick, state
      ensures old(disk) <= disk && old(tick) <= tick && DiskSound(disk, Cap())
      ensures state.sessionCount == old(state.sessionCount) + if |old(state.tasks[k]).sessions| >= Cap() then 0 else 1
      ensures !done ==> o.Fine? && state.sessionCount == old(state.sessionCount) + 1
      ensures o.Fine? ==> Good() && Saved()
      ensures o.Fine? && Unproven(old(state.Snap())) ==> Unproven(state.Snap()) || Passed(old(tick))
      ensures o.Fine? ==> Continues(world, old(state.tasks), state.tasks) || (done && FailedQuietly())
      ensures o.Raised? ==> !o.cause.SelectorFailed? && Explained(o.cause)
      ensures o != Raised(ActiveLost) && (Plain(world, old(state.tasks)) ==> o != Raised(IdClash))
      ensures state.verificationAttempts >= old(state.verificationAttempts)
      ensures !done ==> state.status == old(state.status)
      ensures !done ==> WorkedOn(config, contract, world, old(state.tasks), state.tasks, k, state.sessionCount, old(tick), tick)
      ensures o.Fine? && done ==> Ends(old(tick), old(state.verificationAttempts)) || (state.status == old(state.status) && state.status != Active)
      ensures Obliging() && old(Startable()) && Waiting(old(state.tasks[k]).status) ==>
                o == Fine && !done && CompletedAt(old(state.tasks), state.tasks, k)
    {
      hide Sound, DiskSound, Unproven, Continues, Plain, GivenUp, UniqueKeys, LeavesComplete, IsProjectContract, AnyWith, Closed, CompletedAt;
      hide Obliging, WorkedOn;
      if |state.tasks[k].sessions| >= config.maxSessionsPerTask {
        ghost var attempts := state.verificationAttempts;
        o := FailTask(k);
        FailureCloses(config, contract, world, state.Snap(), k, old(tick), tick, attempts);
        return o, true;
      }
      var attempted;
      o, attempted := WorkOn(k);
      done := o.Raised? || attempted
        || state.status == ProjectCandidateComplete || state.status == ProjectBlocked || state.status == ProjectFailed;
    }

    lemma UnhinderedMeans(before: seq<Task>, now: seq<Task>)
      requires Unhindered(before, Cap())
      ensures Served(before, now) ==> Unhindered(now, Cap()) && UniqueKeys(now) && |now| == |before|
    {
      if Served(before, now) { ServedStaysUnhindered(before, now, Cap()); }
    }

    /** Aggregations and selection; `go` says that task `k` was picked, otherwise the loop ends. */
    method SelectTask() returns (o: Outcome, k: nat, go: bool)
      requires Good()
      modifies this`disk, this`tick, state`tasks, state`active, state`status, state`report, state`verificationAttempts
      ensures old(disk) <= disk && old(tick) <= tick && Good()
      ensures go ==> o.Fine? && k < |state.tasks| && (state.tasks[k].status == Ready || state.tasks[k].status == InProgress)
      ensures go ==> state.tasks[k].status == Ready ==> !AnyWith(state.tasks, InProgress)
      ensures Unproven(old(state.Snap())) ==> Unproven(state.Snap()) || Passed(old(tick))
      ensures Continues(world, old(state.tasks), state.tasks)
      ensures o.Raised? ==> Explained(o.cause) && o != Raised(IdClash) && o != Raised(ActiveLost)
      ensures NoFailed(old(state.tasks)) && config.policy == CandidateCompletePolicy ==> !(o.Raised? && o.cause.SelectorFailed?)
      ensures o.Fine? ==> Saved()
      ensures go ==> Foremost(state.tasks, k) && state.status == old(state.status)
      ensures state.verificationAttempts >= old(state.verificationAttempts)
      ensures o.Fine? && !go ==> Ends(old(tick), old(state.verificationAttempts)) || (state.status == old(state.status) && state.status != Active)
      ensures LeafReopenFree(CandidateRule, old(state.tasks)) && go ==> ReleasedBehindLeaves(old(state.tasks), state.tasks)
      ensures contract.None? && config.policy == CandidateCompletePolicy && old(Startable()) ==>
                && o == Fine && Served(old(state.tasks), state.tasks) && Waits(state.tasks) == Waits(old(state.tasks))
                && (if Waits(old(state.tasks)) != {} then go && Startable() else !go && state.status != Active)
    {
      hide Sound, DiskSound, Unproven, NoFailed, Continues, Plain, GivenUp, UniqueKeys, StuckBehindFailure, LeavesComplete, Saved, NothingMoves;
      hide Closed, SelectorStops, ReleasedBehindLeaves, Served, Waits, Unhindered, Foremost, AnyWith, LeafReopenFree;
      k, go := 0, false;
      ghost var p, since := state.Snap(), tick;
      ghost var before := state.tasks;
      var next := AggregateAndSelect();
      ghost var stopped, selected := state.Snap(), state.tasks;
      if NoFailed(before) { NoneFailedLater(world, before, selected); }
      if next.NoReachableTask? {
        if config.policy == CandidateCompletePolicy { StuckNeedsFailure(state.tasks); }
        return Raised(SelectorFailed(next)), 0, false;
      }
      if Unhindered(before, Cap()) { UnhinderedMeans(before, selected); }
      o := Save();
      if o.Raised? { return; }
      if next.Nothing? {
        o := NothingToDo();
        ContinuesFurther(world, before, selected, state.tasks);
        if stopped.status != ProjectCandidateComplete {
          StopCloses(config, contract, world, p, stopped, since, tick, p.verificationAttempts);
        }
        return;
      }
      k, go := Find(state.tasks, next.id), true;
    }

    /** The deadline comes first; `go` says that task `k` was picked, otherwise the loop ends. */
    method NextTask() returns (o: Outcome, k: nat, go: bool)
      requires Good()
      modifies this`disk, this`tick, state`tasks, state`active, state`status, state`report, state`verificationAttempts
      ensures old(disk) <= disk && old(tick) <= tick && Good()
      ensures go ==> o.Fine? && k < |state.tasks| && (state.tasks[k].status == Ready || state.tasks[k].status == InProgress)
      ensures go ==> state.tasks[k].status == Ready ==> !AnyWith(state.tasks, InProgress)
      ensures Unproven(old(state.Snap())) ==> Unproven(state.Snap()) || Passed(old(tick))
      ensures Continues(world, old(state.tasks), state.tasks)
      ensures o.Raised? ==> Explained(o.cause) && o != Raised(IdClash) && o != Raised(ActiveLost)
      ensures NoFailed(old(state.tasks)) && config.policy == CandidateCompletePolicy ==> !(o.Raised? && o.cause.SelectorFailed?)
      ensures o.Fine? ==> Saved()
      ensures go ==> Foremost(state.tasks, k) && state.status == old(state.status)
      ensures state.verificationAttempts >= old(state.verificationAttempts)
      ensures o.Fine? && !go ==> Ends(old(tick), old(state.verificationAttempts)) || (state.status == old(state.status) && state.status != Active)
      ensures LeafReopenFree(CandidateRule, old(state.tasks)) && go ==> ReleasedBehindLeaves(old(state.tasks), state.tasks)
      ensures Obliging() && old(Startable()) ==>
                && o == Fine && Served(old(state.tasks), state.tasks) && Waits(state.tasks) == Waits(old(state.tasks))
                && (if Waits(old(state.tasks)) != {} then go && Startable() else !go && state.status != Active)
    {
      hide Sound, DiskSound, Unproven, NoFailed, Continues, Plain, GivenUp, UniqueKeys, StuckBehindFailure, LeavesComplete, Saved, NothingMoves;
      hide Closed, SelectorStops, ReleasedBehindLeaves, Served, Waits, Unhindered, Foremost, AnyWith, LeafReopenFree;
      ghost var p, since := state.Snap(), tick;
      ContinuesItself(world, p.tasks);
      var late := PastDeadline();
      if late {
        o := MarkTimeLimit();
        DeadlineCloses(config, contract, world, state.Snap(), since, since, tick, p.verificationAttempts);
        return o, 0, false;
      }
      ghost var from := tick;
      o, k, go := SelectTask();
      if Ends(from, p.verificationAttempts) {
        ClosedSince(config, contract, world, state.Snap(), since, from, tick, p.verificationAttempts, p.verificationAttempts);
      }
    }

    /** The picked task is taken up; afterwards the deadline may end the run. */
    method Turn(k: nat) returns (o: Outcome, go: bool)
      requires ValidConfig(config) && Good() && k < |state.tasks|
      requires state.tasks[k].status == Ready || state.tasks[k].status == InProgress
      requires state.tasks[k].status == Ready ==> !AnyWith(state.tasks, InProgress)
      modifies this`disk, this`tick, state
      ensures old(disk) <= disk && old(tick) <= tick && DiskSound(disk, Cap())
      ensures old(state.sessionCount) <= state.sessionCount <= old(state.sessionCount) + 1
      ensures go ==> o.Fine? && state.sessionCount == old(state.sessionCount) + 1
      ensures o.Fine? ==> Good() && Saved()
      ensures o.Fine? && Unproven(old(state.Snap())) ==> Unproven(state.Snap()) || Passed(old(tick))
      ensures o.Fine? ==> Continues(world, old(state.tasks), state.tasks) || (!go && FailedQuietly())
      ensures o.Raised? ==> !o.cause.SelectorFailed? && Explained(o.cause)
      ensures o != Raised(ActiveLost) && (Plain(world, old(state.tasks)) ==> o != Raised(IdClash))
      ensures state.verificationAttempts >= old(state.verificationAttempts) && (go ==> state.status == old(state.status))
      ensures o.Fine? && !go ==> Ends(old(tick), old(state.verificationAttempts)) || (state.status == old(state.status) && state.status != Active)
      ensures go ==> WorkedOn(config, contract, world, old(state.tasks), state.tasks, k, state.sessionCount, old(tick), tick)
      ensures Obliging() && old(Startable()) && Waiting(old(state.tasks[k]).status) ==>
                o == Fine && go && CompletedAt(old(state.tasks), state.tasks, k)
    {
      hide Sound, DiskSound, Unproven, NoFailed, Continues, Plain, GivenUp, UniqueKeys, LeavesComplete, Saved, AnyWith, Explained, FailedQuietly, NoProgressRequired, ValidConfig;
      hide Closed, Served, Waits, Unhindered, Foremost, ReleasedBehindLeaves, LeafReopenFree, Phased, CompletedAt, Obliging, StuckBehindFailure, WorkedOn;
      ghost var since, attempts := tick, state.verificationAttempts;
      ghost var before := state.tasks;
      var done;
      o, done := TakeUp(k);
      if done { return o, false; }
      ghost var from := tick;
      var late := PastDeadline();
      if late {
        ObligingIsNeverLate(from);
        o := MarkTimeLimit();
        DeadlineCloses(config, contract, world, state.Snap(), since, from, tick, attempts);
        return o, false;
      }
      WorkTakesTime(config, contract, world, before, state.tasks, k, state.sessionCount, since, from, since, tick);
      go := true;
    }

    /** One turn of the run loop; `go` says whether another may follow. */
    method Iterate() returns (o: Outcome, go: bool)
      requires ValidConfig(config) && Good()
      modifies this`disk, this`tick, state
      ensures old(disk) <= disk && old(tick) <= tick && DiskSound(disk, Cap())
      ensures old(state.sessionCount) <= state.sessionCount <= old(state.sessionCount) + 1
      ensures go ==> o.Fine? && state.sessionCount == old(state.sessionCount) + 1
      ensures o.Fine? ==> Good()
      ensures o.Fine? && Unproven(old(state.Snap())) ==> Unproven(state.Snap()) || Passed(old(tick))
      ensures o.Fine? ==> Continues(world, old(state.tasks), state.tasks) || (!go && FailedQuietly())
      ensures o.Raised? ==> Explained(o.cause)
      ensures o != Raised(ActiveLost) && (Plain(world, old(state.tasks)) ==> o != Raised(IdClash))
      ensures NoFailed(old(state.tasks)) && config.policy == CandidateCompletePolicy ==> !(o.Raised? && o.cause.SelectorFailed?)
      ensures o.Fine? ==> Saved()
      ensures state.verificationAttempts >= old(state.verificationAttempts) && (go ==> state.status == old(state.status))
      ensures o.Fine? && !go ==> Ends(old(tick), old(state.verificationAttempts)) || (state.status == old(state.status) && state.status != Active)
      ensures Obliging() && old(Startable()) ==>
                && o == Fine && Served(old(state.tasks), state.tasks)
                && (if Waits(old(state.tasks)) != {}
                    then go && Startable() && |Waits(state.tasks)| == |Waits(old(state.tasks))| - 1
                    else !go && state.status != Active && state.sessionCount == old(state.sessionCount) && Waits(state.tasks) == {})
    {
      hide Sound, DiskSound, Unproven, NoFailed, Continues, Plain, GivenUp, UniqueKeys, LeavesComplete, Saved, AnyWith, Explained, FailedQuietly, NoProgressRequired, ValidConfig;
      hide Closed, Served, Waits, Unhindered, Foremost, ReleasedBehindLeaves, LeafReopenFree, Phased, CompletedAt, Obliging, StuckBehindFailure;
      ghost var p, since := state.Snap(), tick;
      SoundFacts(p, Cap());
      ghost var before := state.tasks;
      var k;
      o, k, go := NextTask();
      if !go { return; }
      ghost var selected, from, attempts := state.tasks, tick, state.verificationAttempts;
      if Plain(world, before) { PlainLater(world, before, selected); }
      o, go := Turn(k);
      if Continues(world, selected, state.tasks) { ContinuesFurther(world, before, selected, state.tasks); }
      ServedInTurn(before, selected, state.tasks, k);
      if Ends(from, attempts) {
        ClosedSince(config, contract, world, state.Snap(), since, from, tick, p.verificationAttempts, attempts);
      }
    }

    lemma ObligingIsNeverLate(n: nat)
      requires world.pastDeadline(n)
      ensures !Obliging()
    {
    }

    /** The selection and the session of one turn leave one task less that waits. */
    lemma ServedInTurn(before: seq<Task>, selected: seq<Task>, now: seq<Task>, k: nat)
      requires Phased(before)
      ensures Served(before, selected) && CompletedAt(selected, now, k) && Waiting(selected[k].status) ==>
                && Served(before, now) && |Waits(now)| == |Waits(selected)| - 1 && |now| == |selected|
                && (Unhindered(selected, Cap()) ==> Unhindered(now, Cap()))
    {
      if Served(before, selected) && CompletedAt(selected, now, k) && Waiting(selected[k].status) {
        SessionServes(selected, now, k);
        ServedFurther(before, selected, now);
        if Unhindered(selected, Cap()) { ServedStaysUnhindered(selected, now, Cap()); }
      }
    }

    /** Both aggregations. */
    method PromoteAll()
      requires Good()
      modifies state`tasks
      ensures Good() && (Unproven(old(state.Snap())) ==> Unproven(state.Snap()))
      ensures exists ts :: Aggregated(CandidateRule, old(state.tasks), ts) && Aggregated(VerifiedRule, ts, state.tasks)
      ensures Settled(old(state.tasks), state.tasks)
      ensures Served(old(state.tasks), state.tasks) && Waits(state.tasks) == Waits(old(state.tasks))
      ensures Continues(world, old(state.tasks), state.tasks)
      ensures !AnyWith(old(state.tasks), InProgress) ==> !AnyWith(state.tasks, InProgress)
    {
      hide Sound, Persistable, Unproven, Aggregated, Continues, Settled, Served, Waits, Phased;
      ghost var p := state.Snap();
      SoundFacts(p, Cap());
      var promoted := AggregateParents(state, CandidateRule);
      ghost var p1 := state.Snap();
      AggregationKeepsSound(CandidateRule, p, p1, Cap());
      promoted := AggregateParents(state, VerifiedRule);
      AggregationKeepsSound(VerifiedRule, p1, state.Snap(), Cap());
      AggregationsLeaveUnproven(p, p1.tasks, state.Snap());
      AggregationsAreQuiet(world, p.tasks, p1.tasks, state.tasks);
      AggregationsSettle(p.tasks, p1.tasks, state.tasks);
      SoundFacts(p1, Cap());
      AggregationServes(CandidateRule, p.tasks, p1.tasks);
      AggregationServes(VerifiedRule, p1.tasks, state.tasks);
      ServedFurther(p.tasks, p1.tasks, state.tasks);
    }

    /** Both aggregations and the final status, after the loop. */
    method FinishRun() returns (o: Outcome)
      requires Good()
      modifies this`disk, this`tick, state`tasks, state`active, state`status, state`report, state`verificationAttempts
      ensures old(disk) <= disk && old(tick) <= tick && Good()
      ensures o.Raised? ==> o.cause == SaveRefused && Explained(o.cause)
      ensures Unproven(old(state.Snap())) ==> Unproven(state.Snap()) || Passed(old(tick))
      ensures o.Fine? && state.status == Active ==> !LeavesComplete(state.tasks)
      ensures state.status == SessionLimitReached && old(state.status) != SessionLimitReached ==>
                state.sessionCount >= config.maxProjectSessions && !LeavesComplete(state.tasks)
      ensures o.Fine? ==> disk == old(disk) || Saved()
      ensures state.sessionCount == old(state.sessionCount)
      ensures Continues(world, old(state.tasks), state.tasks) && (old(FailedQuietly()) ==> FailedQuietly())
      ensures state.verificationAttempts >= old(state.verificationAttempts)
      ensures o.Fine? ==> Ends(old(tick), old(state.verificationAttempts))
                          || (state.status == old(state.status) && Settled(old(state.tasks), state.tasks)
                              && (state.status == Active ==> state.sessionCount < config.maxProjectSessions))
      ensures contract.None? && UniqueKeys(old(state.tasks)) ==>
                o == Fine && Served(old(state.tasks), state.tasks) && Waits(state.tasks) == Waits(old(state.tasks))
    {
      hide *;
      Current();
      ghost var before := state.tasks;
      ghost var since, attempts := tick, state.verificationAttempts;
      PromoteAll();
      Current();
      ServedKeepsKeys(before, state.tasks);
      ghost var promoted := state.tasks;
      if state.status == Active && LeavesComplete(state.tasks) {
        o := FinalizeCandidateComplete();
        ContinuesFurther(world, before, promoted, state.tasks);
      } else if state.sessionCount >= config.maxProjectSessions && state.status == Active {
        ghost var q := state.Snap();
        state.status := SessionLimitReached;
        Current();
        OpenLimit(state.Snap());
        OpeningKeepsSound(q, state.Snap(), Cap());
        UnprovenStays(q, state.Snap());
        LimitEnds(since, attempts);
        o := Save();
      } else {
        o := Fine;
      }
      Current();
    }

    lemma LimitEnds(since: nat, attempts: nat)
      requires state.status == SessionLimitReached && state.sessionCount >= config.maxProjectSessions
      ensures Ends(since, attempts)
    {
    }

    lemma NothingToRetry(before: seq<Task>, now: seq<Task>)
      requires Retried(before, now, |before|)
      ensures contract.None? || (forall i :: 0 <= i < |before| ==> before[i].status != Blocked) ==> now == before
    {
      hide RetriedAs;
    }

    /** What the loop starts with: the tasks of the plan, or those of before with the blocked ones judged once more. */
    ghost predicate Begun(before: seq<Task>, since: nat)
      reads state
    {
      if before == [] && config.mode != PlanningDisabled
      then Valid(world.plan, None, config.minTasks, config.maxTasks)
           && state.tasks == Bound(contract, PlanTasks(state.projectId, world.plan, world.clock(since + 1)))
      else Retried(before, state.tasks, |before|)
    }

    /** The steps before the run loop; `go` says whether the loop is reached. */
    method StartRun() returns (o: Outcome, go: bool)
      requires Good()
      modifies this`disk, this`tick, state
      ensures old(disk) <= disk && old(tick) <= tick && DiskSound(disk, Cap())
      ensures state.sessionCount == old(state.sessionCount)
      ensures o.Fine? ==> Continues(world, old(state.tasks), state.tasks)
      ensures go ==> o.Fine?
      ensures !go && o.Fine? && state.status == Active ==> !LeavesComplete(state.tasks)
      ensures Good()
      ensures o.Fine? && Unproven(old(state.Snap())) ==> Unproven(state.Snap()) || Passed(old(tick))
      ensures o.Raised? ==> !o.cause.SelectorFailed? && Explained(o.cause)
      ensures o != Raised(IdClash) && o != Raised(ActiveLost)
      ensures state.verificationAttempts >= old(state.verificationAttempts) && (go ==> state.status == old(state.status))
      ensures o.Fine? && !go ==> Ends(old(tick), old(state.verificationAttempts))
      ensures go ==> Begun(old(state.tasks), old(tick))
      ensures Obliging() && (old(state.tasks) != [] || Valid(world.plan, None, config.minTasks, config.maxTasks)) ==> o == Fine && go
    {
      hide *;
      Current();
      go := false;
      ghost var before, since, attempts := state.tasks, tick, state.verificationAttempts;
      ContinuesItself(world, before);
      ObligingHasNoContract();
      var late := PastDeadline();
      if late {
        ObligingIsNeverLate(since);
        o := MarkTimeLimit();
        Current();
        DeadlineEnds(since, since, attempts);
        return;
      }
      if state.tasks == [] && config.mode != PlanningDisabled {
        o := CreateInitialPlan();
        Current();
        if o.Raised? { return; }
      }
      Current();
      ghost var planned, from := state.tasks, tick;
      if state.status == ProjectVerificationPending && IsProjectContract(contract) {
        PendingIsComplete(state.Snap(), Cap());
        ProjectContractExists();
        o := FinalizeContractVerification();
        ContinuesFurther(world, before, planned, state.tasks);
        EndsSince(since, from, attempts, attempts);
        PassedSince(since, from, from);
        Current();
        return;
      }
      o := RetryInfrastructure();
      PassedSince(since, from, from);
      Current();
      ContinuesFurther(world, before, planned, state.tasks);
      if before == [] && config.mode != PlanningDisabled { PlannedRetriesNothing(planned, since); }
      BegunMeans(before, since);
      ghost var retried := tick;
      late := PastDeadline();
      PassedSince(since, from, retried);
      if late {
        ObligingIsNeverLate(retried);
        o := MarkTimeLimit();
        Current();
        DeadlineEnds(since, retried, attempts);
        return;
      }
      Current();
      go := true;
    }

    lemma ProjectContractExists()
      ensures IsProjectContract(contract) ==> contract.Some?
    {
    }

    lemma DeadlineEnds(since: nat, n: nat, attempts: nat)
      requires state.status == TimeLimitReached && since <= n < tick && world.pastDeadline(n)
      ensures Ends(since, attempts)
    {
      DeadlineCloses(config, contract, world, state.Snap(), since, n, tick, attempts);
    }

    lemma BegunMeans(before: seq<Task>, since: nat)
      ensures Begun(before, since) <==>
              if before == [] && config.mode != PlanningDisabled
              then Valid(world.plan, None, config.minTasks, config.maxTasks)
                   && state.tasks == Bound(contract, PlanTasks(state.projectId, world.plan, world.clock(since + 1)))
              else Retried(before, state.tasks, |before|)
    {
      hide Valid, Bound, PlanTasks, Retried;
    }

    lemma ObligingHasNoContract()
      ensures Obliging() ==> contract.None?
    {
    }

    lemma PlannedRetriesNothing(planned: seq<Task>, since: nat)
      requires Valid(world.plan, None, config.minTasks, config.maxTasks)
      requires planned == Bound(contract, PlanTasks(state.projectId, world.plan, world.clock(since + 1)))
      ensures Retried(planned, state.tasks, |planned|) ==> state.tasks == planned
    {
      hide Valid, Retried, Bound, PlanTasks;
      PlannedTasksWait(config, contract, state.projectId, world.plan, world.clock(since + 1));
      if Retried(planned, state.tasks, |planned|) { NothingToRetry(planned, state.tasks); }
    }

    lemma EmptyIsUncounted()
      requires Good()
      ensures state.tasks == [] ==> state.sessionCount == 0
    {
      hide Sound;
      if state.tasks == [] { EmptyProjectIsFresh(state.Snap(), Cap()); }
    }

    /** An active project at the end of a run has been checked, or has nothing left to do. */
    lemma RunIsOver(since: nat, attempts: nat)
      ensures Ends(since, attempts) && state.status == Active ==>
                state.verificationAttempts > attempts
                || forall t :: t in state.tasks ==> t.status != Pending && t.status != Ready && t.status != InProgress && t.status != Blocked
    {
    }

    /** What an unhindered project, or an accepted plan, is when the loop begins. */
    lemma StartedSmoothly(p: Snapshot, since: nat)
      requires ValidConfig(config) && Sound(p, Cap()) && Begun(p.tasks, since) && state.status == p.status
      requires Obliging() && p.status == Active
      ensures p.tasks != [] && Unhindered(p.tasks, Cap()) ==>
                Startable() && UniqueKeys(state.tasks) && state.tasks == p.tasks && |Waits(state.tasks)| == |Unfinished(p.tasks)|
      ensures p.tasks == [] && config.mode != PlanningDisabled && world.plan != [] ==>
                && Startable() && UniqueKeys(state.tasks) && |Waits(state.tasks)| == |state.tasks| == |world.plan|
                && forall i :: 0 <= i < |state.tasks| ==> Waiting(state.tasks[i].status)
    {
      SoundFacts(p, Cap());
      hide Sound, Bound, PlanTasks, Valid, Retried, Waits, Phased, Unfinished;
      if p.tasks == [] && config.mode != PlanningDisabled {
        PlannedTasksWait(config, contract, state.projectId, world.plan, world.clock(since + 1));
      } else {
        NothingToRetry(p.tasks, state.tasks);
        if Unhindered(p.tasks, Cap()) { UnfinishedWaits(p.tasks, Cap()); }
      }
    }

    /** When nothing waits any more, the leaves are complete. */
    lemma RanSmoothly(begun: seq<Task>, last: seq<Task>)
      requires Good() && Phased(begun) && Unhindered(begun, Cap()) && begun != []
      requires Served(begun, last) && Served(last, state.tasks) && Waits(state.tasks) == {}
      ensures AllServed(begun, state.tasks) && LeavesComplete(state.tasks) && |state.tasks| == |begun|
      ensures (forall i :: 0 <= i < |begun| ==> Waiting(begun[i].status)) ==> forall t :: t in state.tasks ==> t.status == CandidateComplete
    {
      ServedFurther(begun, last, state.tasks);
      assert (forall i :: 0 <= i < |begun| ==> Waiting(begun[i].status)) ==>
               forall i: nat :: i < |state.tasks| ==> i !in Waits(state.tasks) && state.tasks[i].status == CandidateComplete;
      assert |state.tasks| == |begun|;
      hide Sound, Served, Waits, Unhindered, Phased, AllServed, LeavesComplete;
      ServedStaysUnhindered(begun, state.tasks, Cap());
      NothingWaits(state.Snap(), Cap());
      ServedToTheEnd(begun, state.tasks, Cap());
    }

    /** Turns of the loop, until one of them ends it or the sessions are used up. */
    method RunLoop() returns (o: Outcome)
      requires ValidConfig(config) && Good()
      modifies this`disk, this`tick, state
      ensures old(disk) <= disk && old(tick) <= tick && DiskSound(disk, Cap())
      ensures o.Fine? ==> Good() && (Continues(world, old(state.tasks), state.tasks) || FailedQuietly())
      ensures o.Raised? ==> Explained(o.cause)
      ensures o != Raised(ActiveLost) && (Plain(world, old(state.tasks)) ==> o != Raised(IdClash))
      ensures NoFailed(old(state.tasks)) && config.policy == CandidateCompletePolicy ==> !(o.Raised? && o.cause.SelectorFailed?)
      ensures o.Fine? && Unproven(old(state.Snap())) ==> Unproven(state.Snap()) || Passed(old(tick))
      ensures old(state.sessionCount) <= state.sessionCount
      ensures state.sessionCount <= config.maxProjectSessions || state.sessionCount == old(state.sessionCount)
      ensures o.Fine? && state.sessionCount > old(state.sessionCount) ==> Saved()
      ensures state.verificationAttempts >= old(state.verificationAttempts)
      ensures o.Fine? ==> Ends(old(tick), old(state.verificationAttempts))
                          || (state.status == old(state.status) && (state.status == Active ==> state.sessionCount >= config.maxProjectSessions))
      ensures Obliging() && old(Startable()) && old(state.sessionCount) + |Waits(old(state.tasks))| <= config.maxProjectSessions ==>
                && o == Fine && Served(old(state.tasks), state.tasks) && Waits(state.tasks) == {}
                && state.sessionCount == old(state.sessionCount) + |Waits(old(state.tasks))|
    {
      hide *;
      Current();
      ghost var p, since, total := state.Snap(), tick, state.sessionCount + |Waits(state.tasks)|;
      ghost var smooth := Obliging() && Startable() && total <= config.maxProjectSessions;
      SoundFacts(p, Cap());
      ContinuesItself(world, p.tasks);
      ServedItself(p.tasks);
      var go := true;
      o := Fine;
      while go && state.sessionCount < config.maxProjectSessions
        invariant old(disk) <= disk && since <= tick && o.Fine? && Good()
        invariant Continues(world, p.tasks, state.tasks) || (!go && FailedQuietly())
        invariant Unproven(p) ==> Unproven(state.Snap()) || Passed(since)
        invariant p.sessionCount <= state.sessionCount
        invariant state.sessionCount <= config.maxProjectSessions || state.sessionCount == p.sessionCount
        invariant state.sessionCount > p.sessionCount ==> Saved()
        invariant state.verificationAttempts >= p.verificationAttempts && (go ==> state.status == p.status)
        invariant !go ==> Ends(since, p.verificationAttempts) || (state.status == p.status && state.status != Active)
        invariant smooth ==> Served(p.tasks, state.tasks) && state.sessionCount + |Waits(state.tasks)| == total
        invariant smooth ==> if go then Startable() else Waits(state.tasks) == {}
        decreases go, config.maxProjectSessions - state.sessionCount
      {
        Current();
        ghost var now, from, attempts := state.tasks, tick, state.verificationAttempts;
        if NoFailed(p.tasks) { NoneFailedLater(world, p.tasks, now); }
        if Plain(world, p.tasks) { PlainLater(world, p.tasks, now); }
        o, go := Iterate();
        Current();
        if o.Raised? { return; }
        if Continues(world, now, state.tasks) { ContinuesFurther(world, p.tasks, now, state.tasks); }
        if smooth { ServedFurther(p.tasks, now, state.tasks); }
        if Ends(from, attempts) { EndsSince(since, from, p.verificationAttempts, attempts); }
        PassedSince(since, from, from);
      }
      Current();
    }

    /** The loop and what follows it. */
    method RunBegun() returns (o: Outcome)
      requires ValidConfig(config) && Good()
      modifies this`disk, this`tick, state
      ensures old(disk) <= disk && old(tick) <= tick && DiskSound(disk, Cap())
      ensures o.Fine? ==> Good() && (Continues(world, old(state.tasks), state.tasks) || FailedQuietly())
      ensures o.Fine? && state.status == Active ==> !LeavesComplete(state.tasks)
      ensures o.Raised? ==> Explained(o.cause)
      ensures o != Raised(ActiveLost) && (Plain(world, old(state.tasks)) ==> o != Raised(IdClash))
      ensures NoFailed(old(state.tasks)) && config.policy == CandidateCompletePolicy ==> !(o.Raised? && o.cause.SelectorFailed?)
      ensures o.Fine? && Unproven(old(state.Snap())) ==> Unproven(state.Snap()) || Passed(old(tick))
      ensures old(state.sessionCount) <= state.sessionCount
      ensures state.sessionCount <= config.maxProjectSessions || state.sessionCount == old(state.sessionCount)
      ensures o.Fine? && state.sessionCount > old(state.sessionCount) ==>
                disk != [] && disk[|disk| - 1].sessionCount == state.sessionCount
      ensures o.Fine? ==> Ends(old(tick), old(state.verificationAttempts)) || (state.status == old(state.status) && state.status != Active)
      ensures Obliging() && old(Startable()) && old(state.sessionCount) + |Waits(old(state.tasks))| <= config.maxProjectSessions ==>
                && o == Fine && state.sessionCount == old(state.sessionCount) + |Waits(old(state.tasks))|
                && AllServed(old(state.tasks), state.tasks) && LeavesComplete(state.tasks)
                && ((forall i :: 0 <= i < |old(state.tasks)| ==> Waiting(old(state.tasks)[i].status)) ==>
                      |state.tasks| == |old(state.tasks)| && forall t :: t in state.tasks ==> t.status == CandidateComplete)
    {
      hide *;
      Current();
      ghost var p, since := state.Snap(), tick;
      ghost var smooth := Obliging() && Startable() && state.sessionCount + |Waits(state.tasks)| <= config.maxProjectSessions;
      SoundFacts(p, Cap());
      ObligingHasNoContract();
      UnhinderedKeys(p.tasks);
      o := RunLoop();
      Current();
      if o.Raised? { return; }
      ghost var last, late := state.Snap(), tick;
      if smooth { ServedKeepsKeys(p.tasks, last.tasks); }
      EndedBy(since, p.verificationAttempts);
      SavedMeans();
      o := FinishRun();
      Current();
      PassedSince(since, late, late);
      SavedMeans();
      if Continues(world, p.tasks, last.tasks) { ContinuesFurther(world, p.tasks, last.tasks, state.tasks); }
      RunCloses(p.verificationAttempts, since, last, late);
      EndedBy(since, p.verificationAttempts);
      if smooth { RanSmoothly(p.tasks, last.tasks); }
    }

    lemma SavedMeans()
      ensures Saved() <==> disk != [] && disk[|disk| - 1] == state.Snap()
    {
    }

    lemma EndedBy(since: nat, attempts: nat)
      ensures Ends(since, attempts) <==> Closed(config, contract, world, state.Snap(), since, tick, attempts)
    {
      hide Closed;
    }

    lemma UnhinderedKeys(ts: seq<Task>)
      ensures Unhindered(ts, Cap()) ==> UniqueKeys(ts)
    {
    }

    /** What explained the status after the loop still does, or what followed explains the new one. */
    lemma RunCloses(attempts: nat, since: nat, last: Snapshot, late: nat)
      requires since <= late <= tick && attempts <= last.verificationAttempts <= state.verificationAttempts
      requires state.sessionCount == last.sessionCount
      ensures (Closed(config, contract, world, last, since, late, attempts) && state.status == last.status
               && Settled(last.tasks, state.tasks)) ==> Ends(since, attempts)
      ensures Ends(late, last.verificationAttempts) ==> Ends(since, attempts)
    {
      hide Closed, Settled;
      if Closed(config, contract, world, last, since, late, attempts) && state.status == last.status && Settled(last.tasks, state.tasks) {
        ClosedStays(config, contract, world, last, state.Snap(), since, late, tick, attempts);
      }
      if Ends(late, last.verificationAttempts) {
        ClosedSince(config, contract, world, state.Snap(), since, late, tick, attempts, last.verificationAttempts);
      }
    }

    /** What the predicates say of the project as it is. */
    lemma Current()
      ensures state.Snap() == Snapshot(state.projectId, state.tasks, state.active, state.status, state.planVersion,
                                       state.sessionCount, state.verificationAttempts, state.report)
      ensures Good() <==> Sound(state.Snap(), Cap()) && DiskSound(disk, Cap())
      ensures Startable() <==> state.status == Active && state.tasks != [] && Unhindered(state.tasks, Cap())
      ensures FailedQuietly() <==> state.status == ProjectFailed && !AnyWith(state.tasks, InProgress)
      ensures Cap() == config.maxSessionsPerTask
      ensures Explained(SaveRefused) <==> !UniqueKeys(state.tasks)
      ensures forall since :: Passed(since) <==> PassedBetween(since, tick)
    {
    }

    lemma EndsSince(since: nat, from: nat, attempts: nat, more: nat)
      requires Ends(from, more) && since <= from && attempts <= more
      ensures Ends(since, attempts)
    {
      hide Closed;
      ClosedSince(config, contract, world, state.Snap(), since, from, tick, attempts, more);
    }

    /**
     A whole run. Whatever the model, the checks and the clock do: every save is of a sound project, no illegal status
     move is ever attempted, nothing becomes VERIFIED without evidence that passed, sessions are bounded, and the status it
     ends with is explained; in particular no project is left ACTIVE with work to do, unless its contract sent it back to
     work. The selector fails only behind a failed task (or, under the verified policy, an unverified one), and never under
     the candidate-complete policy if no task had failed when the run began. If every session requests completion and
     nothing hinders the project, each unfinished leaf gets exactly one session and is complete afterwards.
     */
    method RunProject() returns (o: Outcome)
      requires ValidConfig(config) && Good()
      modifies this`disk, this`tick, state
      ensures old(disk) <= disk && old(tick) <= tick && DiskSound(disk, Cap())
      ensures o.Fine? ==> Good()
      ensures o.Fine? && state.status == Active ==> !LeavesComplete(state.tasks)
      ensures o.Fine? && state.status == Active ==>
                state.verificationAttempts > old(state.verificationAttempts)
                || forall t :: t in state.tasks ==> t.status != Pending && t.status != Ready && t.status != InProgress && t.status != Blocked
      ensures o.Fine? ==> Ends(old(tick), old(state.verificationAttempts)) || (state.status == old(state.status) && state.status != Active)
      ensures o.Raised? ==> Explained(o.cause)
      ensures o != Raised(ActiveLost) && (Plain(world, old(state.tasks)) ==> o != Raised(IdClash))
      ensures NoFailed(old(state.tasks)) && config.policy == CandidateCompletePolicy ==> !(o.Raised? && o.cause.SelectorFailed?)
      ensures o.Fine? && Unproven(old(state.Snap())) ==> Unproven(state.Snap()) || Passed(old(tick))
      ensures old(state.sessionCount) <= state.sessionCount
      ensures state.sessionCount <= config.maxProjectSessions || state.sessionCount == old(state.sessionCount)
      ensures o.Fine? && state.sessionCount > old(state.sessionCount) ==>
                disk != [] && disk[|disk| - 1].sessionCount == state.sessionCount
      ensures o.Fine? && LastForced(config, old(state.tasks)).None? ==> Resumable(config, state.Snap())
      ensures Obliging() && old(Startable()) && old(state.sessionCount) + |Unfinished(old(state.tasks))| <= config.maxProjectSessions ==>
                && o == Fine && state.sessionCount == old(state.sessionCount) + |Unfinished(old(state.tasks))|
                && AllServed(old(state.tasks), state.tasks) && state.status != Active
      ensures Obliging() && old(state.status) == Active && old(state.tasks) == [] && config.mode != PlanningDisabled
              && world.plan != [] && Valid(world.plan, None, config.minTasks, config.maxTasks)
              && |world.plan| <= config.maxProjectSessions ==>
                && o == Fine && state.sessionCount == |world.plan| == |state.tasks| && state.status != Active
                && forall t :: t in state.tasks ==> t.status == CandidateComplete
    {
      hide *;
      Current();
      ghost var p, since := state.Snap(), tick;
      EmptyIsUncounted();
      ObligingHasNoContract();
      var go;
      o, go := StartRun();
      Current();
      if !go {
        if o.Fine? { RunEndsResumable(world, config, p.tasks, state.Snap()); }
        RunIsOver(since, p.verificationAttempts);
        return;
      }
      ghost var begun, from, attempts := state.tasks, tick, state.verificationAttempts;
      if Obliging() && p.status == Active { StartedSmoothly(p, since); }
      if NoFailed(p.tasks) { NoneFailedLater(world, p.tasks, begun); }
      if Plain(world, p.tasks) { PlainLater(world, p.tasks, begun); }
      o := RunBegun();
      Current();
      PassedSince(since, from, from);
      if o.Raised? { return; }
      if Continues(world, begun, state.tasks) { ContinuesFurther(world, p.tasks, begun, state.tasks); }
      RunEndsResumable(world, config, p.tasks, state.Snap());
      if Ends(from, attempts) { EndsSince(since, from, p.verificationAttempts, attempts); }
      RunIsOver(since, p.verificationAttempts);
    }

    lemma AllRestartedMeans()
      ensures forall t: Task {:trigger Restarted(config, t)} ::
                var stuck := (config.mode == Adaptive || config.mode == AdaptiveSearch) && t.depth < config.maxDepth
                             && t.noProgress >= config.maxNoProgressSessions;
                Restarted(config, t).status == if t.status != Failed then t.status else if stuck then InProgress
                                               else if |t.sessions| < config.maxSessionsPerTask then Ready else Failed
    {
    }

    /** The first pass of a resume. */
    method RestartFailed()
      requires Good()
      modifies state`tasks, state`active, state`status
      ensures Orderly(state.Snap(), Cap()) && AllRestarted(config, old(state.tasks), state.tasks)
      ensures state.active == ActiveInRepair(config, old(state.tasks), 0, old(state.active))
      ensures state.Snap() == old(state.Snap()).(tasks := state.tasks, active := state.active, status := Active)
      ensures forall i :: 0 <= i < |state.tasks| ==>
                var was := old(state.tasks)[i];
                var stuck := (config.mode == Adaptive || config.mode == AdaptiveSearch) && was.depth < config.maxDepth
                             && was.noProgress >= config.maxNoProgressSessions;
                state.tasks[i].status == if was.status != Failed then was.status else if stuck then InProgress
                                         else if |was.sessions| < config.maxSessionsPerTask then Ready else Failed
    {
      AllRestartedMeans();
      hide Sound, MustDecompose, MayRetry, LastForced;
      ghost var p := state.Snap();
      var ts := state.tasks;
      state.status := Active;
      for i := 0 to |ts|
        invariant |state.tasks| == |ts| && state.status == Active
        invariant forall j :: 0 <= j < |ts| ==> state.tasks[j] == if j < i then Restarted(config, ts[j]) else ts[j]
        invariant state.active == ActiveInRepair(config, ts[..i], 0, p.active)
      {
        assert ts[..i + 1][..i] == ts[..i];
        if MustDecompose(config, ts[i]) {
          state.tasks := state.tasks[i := ts[i].(status := InProgress)];
          state.active := Some(ts[i].id);
        } else if MayRetry(config, ts[i]) {
          state.tasks := state.tasks[i := ts[i].(status := Ready)];
        }
      }
      assert ts[..|ts|] == ts;
      assert AllRestarted(config, ts, state.tasks);
      hide AllRestarted, Repaired;
      RestartKeepsOrder(config, p, state.Snap());
    }

    /** The second pass: the tasks of `ts` that made no progress are decomposed, whatever the search would say. */
    method DecomposeStuck(ts: seq<Task>, ghost was: Option<TaskId>) returns (o: Outcome)
      requires ValidConfig(config) && Orderly(state.Snap(), Cap()) && UniqueIds(ts)
      requires AllRestarted(config, ts, state.tasks) && state.active == ActiveInRepair(config, ts, 0, was)
      modifies this`tick, state`tasks, state`active, state`planVersion
      ensures old(tick) <= tick && (o.Raised? ==> Abandoned(o.cause))
      ensures o.Fine? ==> Orderly(state.Snap(), Cap()) && Repaired(config, ts, state.tasks, |ts|)
      ensures o.Fine? ==> state.active == ActiveInRepair(config, ts, |ts|, was)
      ensures Plain(world, ts) ==> o != Raised(IdClash) && (o.Fine? ==> Plain(world, state.tasks))
    {
      hide Orderly, AllRestarted, Repaired, ActiveInRepair, Plain, Abandoned;
      RestartRepaints(config, ts, state.tasks);
      if Plain(world, ts) { RestartStaysPlain(world, config, ts, state.tasks); }
      for k := 0 to |ts|
        invariant old(tick) <= tick && Orderly(state.Snap(), Cap()) && Repaired(config, ts, state.tasks, k)
        invariant state.active == ActiveInRepair(config, ts, k, was)
        invariant Plain(world, ts) ==> Plain(world, state.tasks)
      {
        if MustDecompose(config, ts[k]) {
          o := DecomposeOne(ts, k, was);
          if o.Raised? { return; }
        } else {
          RepairOneMore(config, ts, state.tasks, k, state.tasks);
          ActiveOneMore(config, ts, k, was);
        }
      }
      o := Fine;
    }

    method DecomposeOne(ts: seq<Task>, k: nat, ghost was: Option<TaskId>) returns (o: Outcome)
      requires ValidConfig(config) && Orderly(state.Snap(), Cap()) && UniqueIds(ts)
      requires k < |ts| && MustDecompose(config, ts[k]) && Repaired(config, ts, state.tasks, k)
      requires state.active == ActiveInRepair(config, ts, k, was)
      modifies this`tick, state`tasks, state`active, state`planVersion
      ensures old(tick) <= tick && (o.Raised? ==> Abandoned(o.cause))
      ensures o.Fine? ==> Orderly(state.Snap(), Cap()) && Repaired(config, ts, state.tasks, k + 1)
      ensures o.Fine? ==> state.active == ActiveInRepair(config, ts, k + 1, was)
      ensures Plain(world, old(state.tasks)) ==> o != Raised(IdClash) && (o.Fine? ==> Plain(world, state.tasks))
    {
      ghost var p, clock, n := state.Snap(), world.clock(tick), tick;
      var drafts := world.repair(tick);
      OrderlyIds(p, Cap());
      StuckIsForced(config, ts, p.tasks, k);
      ForcedStep(config, p.tasks[k], drafts);
      hide Orderly, Repaired, ActiveInRepair, UniqueIds, ValidChildren, IdsFresh, Plain, Took, GivenUp;
      hide DecompositionStep, DecomposerStep, StepOutcome, MustDecompose, NoProgressRequired, Sound, DiskSound;
      o := TriggerDecomposition(k, true, SessionOutcome(None, false, false, NoValidCandidate, drafts));
      RepairEnds(config, world, p, state.Snap(), k, n, clock, o);
      hide Abandoned;
      AbandonedBecause(o, k);
      if Plain(world, p.tasks) { RepairIsFresh(world, p, Cap(), k, n); }
      if o.Fine? { RepairStep(config, world, ts, p, state.Snap(), k, n, was, clock); }
    }

    /** Failed tasks are taken up again; the invariant survives exactly if nothing ran or nothing was decomposed. */
    method RepairFailed() returns (o: Outcome)
      requires ValidConfig(config) && Good()
      modifies this`tick, state`tasks, state`active, state`status, state`planVersion
      ensures old(tick) <= tick && (o.Raised? ==> Abandoned(o.cause))
      ensures o.Fine? ==> Orderly(state.Snap(), Cap()) && (Good() <==> Repairable(config, old(state.tasks)))
      ensures o.Fine? ==> state.status == Active && Repaired(config, old(state.tasks), state.tasks, |old(state.tasks)|)
      ensures Plain(world, old(state.tasks)) ==> o != Raised(IdClash) && (o.Fine? ==> Plain(world, state.tasks))
    {
      hide Plain;
      ghost var was := state.active;
      var ts := state.tasks;
      SoundFacts(state.Snap(), Cap());
      RestartFailed();
      o := DecomposeStuck(ts, was);
      if o.Fine? {
        RepairedActive(config, ts, state.tasks, was);
        OrderlyIsSound(state.Snap(), Cap());
      }
    }

    /** No task stays failed when the project is resumed. */
    predicate Recovers()
      reads state
    {
      forall t :: t in state.tasks && t.status == Failed ==>
        Stopped(state.status) && (MustDecompose(config, t) || MayRetry(config, t))
    }

    /** A stopped project is taken up again; one that awaits its verification is verified first. */
    method Resume() returns (o: Outcome)
      requires ValidConfig(config) && Good()
      modifies this`disk, this`tick, state
      ensures old(disk) <= disk && DiskSound(disk, Cap())
      ensures o.Fine? ==> Good() && (old(Resumable(config, state.Snap())) ==> Resumable(config, state.Snap()))
      ensures o.Raised? ==> Explained(o.cause)
      ensures old(Resumable(config, state.Snap())) ==> o != Raised(ActiveLost)
      ensures Plain(world, old(state.tasks)) ==> o != Raised(IdClash)
      ensures config.policy == CandidateCompletePolicy && old(Recovers()) ==> !(o.Raised? && o.cause.SelectorFailed?)
      ensures o.Fine? && state.status == Active ==> !LeavesComplete(state.tasks)
      ensures o.Fine? && Unproven(old(state.Snap())) ==> Unproven(state.Snap()) || Passed(old(tick))
      ensures state.sessionCount <= config.maxProjectSessions || state.sessionCount == old(state.sessionCount)
      ensures o.Fine? ==> Ends(old(tick), old(state.verificationAttempts)) || (state.status == old(state.status) && state.status != Active)
    {
      hide *;
      Current();
      ghost var p, since := state.Snap(), tick;
      RecoveringMeans();
      ResumableMeans(config, p, p);
      if Stopped(state.status) {
        o := RepairFailed();
        AbandonedMeans(o);
        Current();
        if o.Raised? { return; }
        OrderlyIsSound(state.Snap(), Cap());
        if !OneActive(state.tasks, state.active) {
          ActiveLostMeans(p);
          return Raised(ActiveLost);
        }
        RepairLeavesNoFailure(config, p.tasks, state.tasks);
        NoneForcedAfterRepair(config, p.tasks, state.tasks);
        UnprovenAfterRepair(p, state.Snap());
      }
      ghost var from, attempts, repaired := tick, state.verificationAttempts, state.Snap();
      ResumableMeans(config, p, repaired);
      o := RunProject();
      Current();
      PassedSince(since, from, from);
      if Ends(from, attempts) { EndsSince(since, from, p.verificationAttempts, attempts); }
    }

    /** The errors of a repair are explained as those of a run. */
    lemma AbandonedMeans(o: Outcome)
      ensures o.Raised? && Abandoned(o.cause) ==> Explained(o.cause) && (o.cause == DecompositionFailed || o.cause == IdClash)
    {
      hide Explained;
    }

    lemma ActiveLostMeans(p: Snapshot)
      requires !OneActive(state.tasks, state.active)
      ensures Explained(ActiveLost)
    {
      hide OneActive;
    }

    lemma RecoveringMeans()
      ensures Recovers() <==> forall t :: t in state.tasks && t.status == Failed ==>
                Stopped(state.status) && (MustDecompose(config, t) || MayRetry(config, t))
      ensures Recovers() && !Stopped(state.status) ==> NoFailed(state.tasks)
    {
      hide MustDecompose, MayRetry, Stopped;
      if Recovers() && !Stopped(state.status) {
        forall i | 0 <= i < |state.tasks|
          ensures state.tasks[i].status != Failed
        {
          assert state.tasks[i] in state.tasks;
        }
      }
    }
  }
}
