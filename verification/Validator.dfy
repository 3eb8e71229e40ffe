/** Validation of submitted plans and decompositions, and their conversion to tasks. */
module Validator {
  import opened Common
  import opened Schema
  import A = Acyclicity

  datatype Draft = Draft(key: string, objective: string, criteria: seq<string>, dependsOn: seq<string>)

  datatype PlanError =
    | CountOutOfBounds | DuplicateKeys | MissingCriteria | UnknownKey(key: string) | CyclicPlan | DepthReached | NotMoreSpecific

  datatype Validation = Accepted | Rejected(error: PlanError)

  function Keys(drafts: seq<Draft>): seq<string> {
    seq(|drafts|, i requires 0 <= i < |drafts| => drafts[i].key)
  }

  predicate UniqueDraftKeys(drafts: seq<Draft>) {
    forall i, j :: 0 <= i < j < |drafts| ==> drafts[i].key != drafts[j].key
  }

  predicate KnownDependencies(drafts: seq<Draft>, d: Draft) {
    forall k :: k in d.dependsOn ==> k in Keys(drafts)
  }

  /** The key graph of a draft list; for a repeated key the last draft counts. */
  function KeyGraph(drafts: seq<Draft>): A.Graph {
    if drafts == [] then map[]
    else
      var d := drafts[|drafts| - 1];
      KeyGraph(drafts[..|drafts| - 1])[d.key := d.dependsOn]
  }

  function Strip(s: string): string {
    if s == "" then ""
    else if IsSpace(s[0]) then Strip(s[1..])
    else if IsSpace(s[|s| - 1]) then Strip(s[..|s| - 1])
    else s
  }

  /** What a decomposition must not do: restate its parent. */
  predicate MoreSpecific(parent: Option<string>, d: Draft) {
    parent.None? || Strip(d.objective) != Strip(parent.value)
  }

  /** The checks on each draft, and on the list apart from cycles. */
  ghost predicate WellFormed(drafts: seq<Draft>, parent: Option<string>, min: int, max: int) {
    && min <= |drafts| <= max
    && UniqueDraftKeys(drafts)
    && (forall d :: d in drafts ==> d.criteria != [] && KnownDependencies(drafts, d) && MoreSpecific(parent, d))
  }

  /** An acceptable draft list: its keys can be ordered with every dependency first. */
  ghost predicate Valid(drafts: seq<Draft>, parent: Option<string>, min: int, max: int) {
    exists order ::
      && WellFormed(drafts, parent, min, max)
      && A.TopologicalOrder(KeyGraph(drafts), order) && forall k :: k in Keys(drafts) ==> k in order
  }

  /** The part both validations share; `parent` is the parent's objective for a decomposition. */
  method Validate(drafts: seq<Draft>, parent: Option<string>, min: int, max: int) returns (r: Validation)
    ensures r.Accepted? <==> Valid(drafts, parent, min, max)
    ensures r == Rejected(CyclicPlan) ==> A.CycleFrom(KeyGraph(drafts), Keys(drafts))
  {
    if !(min <= |drafts| <= max) { return Rejected(CountOutOfBounds); }
    if !UniqueDraftKeys(drafts) { return Rejected(DuplicateKeys); }
    var dependencies: A.Graph := map[];
    for i := 0 to |drafts|
      invariant dependencies == KeyGraph(drafts[..i])
      invariant forall j :: 0 <= j < i ==>
        drafts[j].criteria != [] && KnownDependencies(drafts, drafts[j]) && MoreSpecific(parent, drafts[j])
    {
      var d := drafts[i];
      if !MoreSpecific(parent, d) { return Rejected(NotMoreSpecific); }
      if d.criteria == [] { return Rejected(MissingCriteria); }
      for j := 0 to |d.dependsOn|
        invariant forall l :: 0 <= l < j ==> d.dependsOn[l] in Keys(drafts)
      {
        if d.dependsOn[j] !in Keys(drafts) { return Rejected(UnknownKey(d.dependsOn[j])); }
      }
      assert drafts[..i + 1][..i] == drafts[..i];
      dependencies := dependencies[d.key := d.dependsOn];
    }
    assert drafts[..|drafts|] == drafts;
    assert WellFormed(drafts, parent, min, max);
    var ok := A.AssertAcyclic(Keys(drafts), dependencies);
    return if ok then Accepted else Rejected(CyclicPlan);
  }

  method ValidateInitial(drafts: seq<Draft>, minTasks: int, maxTasks: int) returns (r: Validation)
    ensures r.Accepted? <==> Valid(drafts, None, minTasks, maxTasks)
  {
    r := Validate(drafts, None, minTasks, maxTasks);
  }

  method ValidateChildren(parentDepth: int, parentObjective: string, drafts: seq<Draft>,
                          minChildren: int, maxChildren: int, maxDepth: int) returns (r: Validation)
    ensures r.Accepted? <==> parentDepth < maxDepth && Valid(drafts, Some(parentObjective), minChildren, maxChildren)
  {
    if parentDepth >= maxDepth { return Rejected(DepthReached); }
    r := Validate(drafts, Some(parentObjective), minChildren, maxChildren);
  }

  // ---- Conversion to tasks ----

  function Qualified(prefix: string, key: string): TaskId {
    prefix + ":" + key
  }

  function QualifiedAll(prefix: string, keys: seq<string>): seq<TaskId> {
    seq(|keys|, i requires 0 <= i < |keys| => Qualified(prefix, keys[i]))
  }

  function ToTask(prefix: string, parent: Option<TaskId>, depth: nat, d: Draft, createdAt: int): Task {
    NewTask(Qualified(prefix, d.key), d.key, d.objective, QualifiedAll(prefix, d.dependsOn), parent, depth, createdAt)
  }

  /** Creation times come from the clock, one reading a task. */
  function ToTasks(prefix: string, parent: Option<TaskId>, depth: nat, drafts: seq<Draft>, clock: nat -> int): (ts: seq<Task>)
    ensures |ts| == |drafts|
    ensures forall i :: 0 <= i < |ts| ==> ts[i] == ToTask(prefix, parent, depth, drafts[i], clock(i))
  {
    seq(|drafts|, i requires 0 <= i < |drafts| => ToTask(prefix, parent, depth, drafts[i], clock(i)))
  }

  function PlanTasks(projectId: string, drafts: seq<Draft>, clock: nat -> int): seq<Task> {
    ToTasks(projectId, None, 0, drafts, clock)
  }

  function ChildTasks(parent: Task, drafts: seq<Draft>, clock: nat -> int): seq<Task> {
    ToTasks(parent.id, Some(parent.id), ChildDepth(parent), drafts, clock)
  }

  lemma QualifiedInjective(prefix: string, k: string, l: string)
    ensures Qualified(prefix, k) == Qualified(prefix, l) ==> k == l
  {
    assert Qualified(prefix, k)[|prefix| + 1..] == k;
    assert Qualified(prefix, l)[|prefix| + 1..] == l;
  }

  lemma {:induction false} KeyGraphAt(drafts: seq<Draft>, i: nat)
    requires UniqueDraftKeys(drafts) && i < |drafts|
    ensures drafts[i].key in KeyGraph(drafts) && KeyGraph(drafts)[drafts[i].key] == drafts[i].dependsOn
  {
    if i < |drafts| - 1 { KeyGraphAt(drafts[..|drafts| - 1], i); }
  }
}
