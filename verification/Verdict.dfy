/**
 The verification verdict: contract checks are run on the baseline and on the candidate,
 the two outcomes of each check become a transition, and the verdict is decided by counting.
 The main result says what the counting means.
 */
module Verdict {
  import opened Common

  datatype CheckKind = Resolution | Regression | CandidateOnly | Static | Integrity | GeneratedTest
  datatype Expected = Pass | Fail | AnyState | NotRun
  datatype Status = Passed | Failed | Timeout | Error | Skipped
  datatype Severity = Warning | ErrorSeverity | Critical
  datatype Verdict = Verified | Partial | Reopened | Inconclusive | InfrastructureError | ContractInvalid

  datatype Check = Check(id: string, kind: CheckKind, required: bool, baselineExpected: Expected)

  /** What running one check in one workspace gave. */
  datatype Outcome = Outcome(status: Status, infrastructureError: bool)
  datatype CheckResult = CheckResult(id: string, outcome: Outcome)

  /** A run maps the id of a check to its outcome. */
  type Run = string -> Outcome

  datatype Letter = P | F | X
  datatype CheckTransition = CheckTransition(id: string, before: Letter, after: Letter, candidateStatus: Status)

  /** The expectation a contract gets when it names none. */
  function DefaultExpectation(kind: CheckKind): Expected {
    match kind
    case Resolution => Fail
    case CandidateOnly | Static | GeneratedTest => NotRun
    case Regression | Integrity => Pass
  }

  predicate UniqueIds(checks: seq<Check>) {
    forall i, j :: 0 <= i < j < |checks| ==> checks[i].id != checks[j].id
  }

  // ---- Running the checks ----

  predicate Executed(c: Check, onCandidate: bool) {
    c.kind != Integrity && (onCandidate || c.kind !in {CandidateOnly, Static, GeneratedTest})
  }

  function Results(checks: seq<Check>, run: Run, onCandidate: bool): seq<CheckResult> {
    if checks == [] then []
    else
      var init := Results(checks[..|checks| - 1], run, onCandidate);
      var c := checks[|checks| - 1];
      if Executed(c, onCandidate) then init + [CheckResult(c.id, run(c.id))] else init
  }

  method RunChecks(checks: seq<Check>, run: Run, onCandidate: bool) returns (results: seq<CheckResult>)
    ensures results == Results(checks, run, onCandidate)
  {
    results := [];
    for i := 0 to |checks|
      invariant results == Results(checks[..i], run, onCandidate)
    {
      assert checks[..i + 1][..i] == checks[..i];
      var check := checks[i];
      if check.kind == Integrity { continue; }
      if !onCandidate && check.kind in {CandidateOnly, Static, GeneratedTest} { continue; }
      results := results + [CheckResult(check.id, run(check.id))];
    }
    assert checks[..|checks|] == checks;
  }

  /** The dictionary built from a result list: the last result of an id wins. */
  function Lookup(results: seq<CheckResult>, id: string): Option<Outcome> {
    if results == [] then None
    else if results[|results| - 1].id == id then Some(results[|results| - 1].outcome)
    else Lookup(results[..|results| - 1], id)
  }

  /** A check has a result exactly when some check of that id was executed, and then it is what running it gave. */
  lemma {:induction false} LookupResults(checks: seq<Check>, run: Run, onCandidate: bool, id: string)
    ensures Lookup(Results(checks, run, onCandidate), id) ==
            if exists c :: c in checks && c.id == id && Executed(c, onCandidate) then Some(run(id)) else None
  {
    if checks != [] {
      var n := |checks| - 1;
      var init := checks[..n];
      LookupResults(init, run, onCandidate, id);
      assert forall c :: c in checks <==> c in init || c == checks[n];
      var all := Results(checks, run, onCandidate);
      if Executed(checks[n], onCandidate) {
        assert all[..|all| - 1] == Results(init, run, onCandidate);
      }
    }
  }

  // ---- Transitions ----

  function StateLetter(o: Option<Outcome>): Letter {
    if o.None? || o.value.status in {Error, Skipped, Timeout} then X
    else if o.value.status == Passed then P else F
  }

  function TransitionOf(c: Check, baseline: seq<CheckResult>, candidate: seq<CheckResult>): CheckTransition {
    var before, after := Lookup(baseline, c.id), Lookup(candidate, c.id);
    CheckTransition(c.id, StateLetter(before), StateLetter(after),
                    if after.Some? then after.value.status else Skipped)
  }

  function BuildTransitions(checks: seq<Check>, baseline: seq<CheckResult>, candidate: seq<CheckResult>): seq<CheckTransition> {
    if checks == [] then []
    else
      var rest := BuildTransitions(checks[1..], baseline, candidate);
      if checks[0].kind == Integrity then rest else [TransitionOf(checks[0], baseline, candidate)] + rest
  }

  function ById(transitions: seq<CheckTransition>, id: string): Option<CheckTransition> {
    if transitions == [] then None
    else if transitions[|transitions| - 1].id == id then Some(transitions[|transitions| - 1])
    else ById(transitions[..|transitions| - 1], id)
  }

  lemma {:induction false} ByIdCons(t: CheckTransition, rest: seq<CheckTransition>, id: string)
    ensures ById([t] + rest, id) == if ById(rest, id).Some? then ById(rest, id) else if t.id == id then Some(t) else None
  {
    if rest == [] {
      assert [t] + rest == [t];
      assert ById([t][..0], id) == None;
    } else {
      var all := [t] + rest;
      assert all[..|all| - 1] == [t] + rest[..|rest| - 1];
      ByIdCons(t, rest[..|rest| - 1], id);
    }
  }

  lemma {:induction false} ByIdOfBuilt(checks: seq<Check>, baseline: seq<CheckResult>, candidate: seq<CheckResult>, c: Check)
    requires UniqueIds(checks)
    ensures c in checks && c.kind != Integrity ==>
              ById(BuildTransitions(checks, baseline, candidate), c.id) == Some(TransitionOf(c, baseline, candidate))
    ensures (forall d :: d in checks ==> d.id != c.id) ==>
              ById(BuildTransitions(checks, baseline, candidate), c.id) == None
  {
    if checks != [] {
      var rest := BuildTransitions(checks[1..], baseline, candidate);
      ByIdOfBuilt(checks[1..], baseline, candidate, c);
      ByIdCons(TransitionOf(checks[0], baseline, candidate), rest, c.id);
      assert forall d :: d in checks <==> d == checks[0] || d in checks[1..];
    }
  }

  // ---- Summary and decision ----

  /** The three groups of checks that are counted. */
  datatype Group = Fixed | Kept | OneSided

  predicate InGroup(c: Check, g: Group) {
    c.required &&
    match g
    case Fixed => c.kind == Resolution
    case Kept => c.kind == Regression
    case OneSided => c.kind == CandidateOnly || c.kind == Static
  }

  predicate Counted(c: Check) {
    InGroup(c, Fixed) || InGroup(c, Kept) || InGroup(c, OneSided)
  }

  /** Does the transition recorded for a counted check satisfy it? */
  predicate CheckPasses(c: Check, t: Option<CheckTransition>) {
    t.Some? &&
    match c.kind
    case Resolution => t.value.before == F && t.value.after == P
    case Regression => t.value.before == P && t.value.after == P
    case CandidateOnly | Static | Integrity | GeneratedTest => t.value.candidateStatus == Passed
  }

  function Select(checks: seq<Check>, group: Group): seq<Check> {
    if checks == [] then []
    else (if InGroup(checks[0], group) then [checks[0]] else []) + Select(checks[1..], group)
  }

  function PassedCount(checks: seq<Check>, transitions: seq<CheckTransition>): nat {
    if checks == [] then 0
    else (if CheckPasses(checks[0], ById(transitions, checks[0].id)) then 1 else 0) + PassedCount(checks[1..], transitions)
  }

  predicate IntegrityPassed(violations: seq<Severity>) {
    !exists v :: v in violations && v in {ErrorSeverity, Critical}
  }

  predicate BaselineMatches(checks: seq<Check>, baseline: seq<CheckResult>) {
    forall c :: c in checks && c.baselineExpected != AnyState && c.baselineExpected != NotRun ==>
      var o := Lookup(baseline, c.id);
      o.Some? && ((o.value.status == Passed) <==> c.baselineExpected == Pass)
  }

  function SummarizeAndDecide(
    checks: seq<Check>, transitions: seq<CheckTransition>, violations: seq<Severity>,
    baseline: seq<CheckResult>, candidate: seq<CheckResult>): Verdict
  {
    var resolution := Select(checks, Fixed);
    var regression := Select(checks, Kept);
    var candidateOnly := Select(checks, OneSided);
    var resolutionPassed := PassedCount(resolution, transitions);
    var regressionPassed := PassedCount(regression, transitions);
    var candidateOnlyPassed := PassedCount(candidateOnly, transitions);
    var requiredTotal := |resolution| + |regression| + |candidateOnly|;
    var requiredPassed := resolutionPassed + regressionPassed + candidateOnlyPassed;
    if exists r: CheckResult :: r in baseline + candidate && r.outcome.infrastructureError then InfrastructureError
    else if !BaselineMatches(checks, baseline) then Inconclusive
    else if requiredTotal == 0 then Inconclusive
    else if requiredPassed == requiredTotal && IntegrityPassed(violations) then Verified
    else if 0 < resolutionPassed < |resolution| && regressionPassed == |regression| && IntegrityPassed(violations) then Partial
    else Reopened
  }

  /** What the gateway computes once both workspaces exist. */
  function Decide(checks: seq<Check>, baseline: Run, candidate: Run, violations: seq<Severity>): Verdict {
    var baselineResults := Results(checks, baseline, false);
    var candidateResults := Results(checks, candidate, true);
    SummarizeAndDecide(checks, BuildTransitions(checks, baselineResults, candidateResults), violations,
                       baselineResults, candidateResults)
  }

  // ---- What the decision means, check by check ----

  ghost predicate Infrastructure(checks: seq<Check>, baseline: Run, candidate: Run) {
    exists c :: c in checks && ((Executed(c, false) && baseline(c.id).infrastructureError)
                                || (Executed(c, true) && candidate(c.id).infrastructureError))
  }

  /** A baseline expectation of pass or fail holds only for a check that ran on the baseline. */
  ghost predicate BaselineAsExpected(checks: seq<Check>, baseline: Run) {
    forall c :: c in checks && (c.baselineExpected == Pass || c.baselineExpected == Fail) ==>
      Executed(c, false) && ((baseline(c.id).status == Passed) <==> c.baselineExpected == Pass)
  }

  ghost predicate Satisfied(c: Check, baseline: Run, candidate: Run) {
    match c.kind
    case Resolution => baseline(c.id).status == Failed && candidate(c.id).status == Passed
    case Regression => baseline(c.id).status == Passed && candidate(c.id).status == Passed
    case CandidateOnly | Static | Integrity | GeneratedTest => candidate(c.id).status == Passed
  }

  ghost predicate AllSatisfied(checks: seq<Check>, group: Group, baseline: Run, candidate: Run) {
    forall c :: c in checks && InGroup(c, group) ==> Satisfied(c, baseline, candidate)
  }

  ghost predicate SomeSatisfied(checks: seq<Check>, group: Group, baseline: Run, candidate: Run) {
    exists c :: c in checks && InGroup(c, group) && Satisfied(c, baseline, candidate)
  }

  ghost predicate AllCountedSatisfied(checks: seq<Check>, baseline: Run, candidate: Run) {
    forall c :: c in checks && Counted(c) ==> Satisfied(c, baseline, candidate)
  }

  ghost predicate ContractMet(checks: seq<Check>, baseline: Run, candidate: Run, violations: seq<Severity>) {
    && !Infrastructure(checks, baseline, candidate)
    && BaselineAsExpected(checks, baseline)
    && (exists c :: c in checks && Counted(c))
    && AllCountedSatisfied(checks, baseline, candidate)
    && IntegrityPassed(violations)
  }

  /** The verdict without any counting and without any order. */
  ghost function DeclaredVerdict(checks: seq<Check>, baseline: Run, candidate: Run, violations: seq<Severity>): Verdict {
    if Infrastructure(checks, baseline, candidate) then InfrastructureError
    else if !BaselineAsExpected(checks, baseline) || !(exists c :: c in checks && Counted(c)) then Inconclusive
    else if AllCountedSatisfied(checks, baseline, candidate) && IntegrityPassed(violations) then Verified
    else if SomeSatisfied(checks, Fixed, baseline, candidate)
         && !AllSatisfied(checks, Fixed, baseline, candidate)
         && AllSatisfied(checks, Kept, baseline, candidate) && IntegrityPassed(violations) then Partial
    else Reopened
  }

  lemma {:induction false} SelectMembers(checks: seq<Check>, group: Group, c: Check)
    ensures c in Select(checks, group) <==> c in checks && InGroup(c, group)
  {
    if checks != [] { SelectMembers(checks[1..], group, c); }
  }

  lemma {:induction false} PassedCountBounds(checks: seq<Check>, transitions: seq<CheckTransition>)
    ensures PassedCount(checks, transitions) <= |checks|
    ensures PassedCount(checks, transitions) == |checks| <==>
            forall c :: c in checks ==> CheckPasses(c, ById(transitions, c.id))
    ensures PassedCount(checks, transitions) > 0 <==>
            exists c :: c in checks && CheckPasses(c, ById(transitions, c.id))
  {
    if checks != [] {
      PassedCountBounds(checks[1..], transitions);
      assert forall c :: c in checks <==> c == checks[0] || c in checks[1..];
    }
  }

  /** On a counted check, the recorded transition satisfies it exactly when its two outcomes do. */
  lemma PassesIffSatisfied(checks: seq<Check>, baseline: Run, candidate: Run, c: Check)
    requires UniqueIds(checks) && c in checks && Counted(c)
    ensures var base, cand := Results(checks, baseline, false), Results(checks, candidate, true);
      CheckPasses(c, ById(BuildTransitions(checks, base, cand), c.id)) <==> Satisfied(c, baseline, candidate)
  {
    var base, cand := Results(checks, baseline, false), Results(checks, candidate, true);
    ByIdOfBuilt(checks, base, cand, c);
    LookupResults(checks, baseline, false, c.id);
    LookupResults(checks, candidate, true, c.id);
    assert forall d :: d in checks && d.id == c.id ==> d == c;
  }

  lemma SelectedCount(checks: seq<Check>, group: Group, baseline: Run, candidate: Run)
    requires UniqueIds(checks)
    ensures var base, cand := Results(checks, baseline, false), Results(checks, candidate, true);
      var n := PassedCount(Select(checks, group), BuildTransitions(checks, base, cand));
      && n <= |Select(checks, group)|
      && (n == |Select(checks, group)| <==> AllSatisfied(checks, group, baseline, candidate))
      && (n > 0 <==> SomeSatisfied(checks, group, baseline, candidate))
  {
    var base, cand := Results(checks, baseline, false), Results(checks, candidate, true);
    var ts := BuildTransitions(checks, base, cand);
    PassedCountBounds(Select(checks, group), ts);
    forall c
      ensures c in Select(checks, group) <==> c in checks && InGroup(c, group)
      ensures c in Select(checks, group) ==>
                (CheckPasses(c, ById(ts, c.id)) <==> Satisfied(c, baseline, candidate))
    {
      SelectMembers(checks, group, c);
      if c in Select(checks, group) { PassesIffSatisfied(checks, baseline, candidate, c); }
    }
  }

  lemma {:induction false} ResultsMembers(checks: seq<Check>, run: Run, onCandidate: bool, r: CheckResult)
    ensures r in Results(checks, run, onCandidate) <==>
            exists c :: c in checks && Executed(c, onCandidate) && r == CheckResult(c.id, run(c.id))
  {
    if checks != [] {
      var n := |checks| - 1;
      ResultsMembers(checks[..n], run, onCandidate, r);
      assert forall c :: c in checks <==> c in checks[..n] || c == checks[n];
    }
  }

  lemma InfrastructureSeen(checks: seq<Check>, baseline: Run, candidate: Run)
    ensures var base, cand := Results(checks, baseline, false), Results(checks, candidate, true);
      (exists r: CheckResult :: r in base + cand && r.outcome.infrastructureError) <==> Infrastructure(checks, baseline, candidate)
  {
    var base, cand := Results(checks, baseline, false), Results(checks, candidate, true);
    forall r: CheckResult | r in base + cand && r.outcome.infrastructureError
      ensures Infrastructure(checks, baseline, candidate)
    {
      ResultsMembers(checks, baseline, false, r);
      ResultsMembers(checks, candidate, true, r);
    }
    forall c | c in checks && ((Executed(c, false) && baseline(c.id).infrastructureError)
                               || (Executed(c, true) && candidate(c.id).infrastructureError))
      ensures exists r: CheckResult :: r in base + cand && r.outcome.infrastructureError
    {
      var r0, r1 := CheckResult(c.id, baseline(c.id)), CheckResult(c.id, candidate(c.id));
      ResultsMembers(checks, baseline, false, r0);
      ResultsMembers(checks, candidate, true, r1);
      assert r0 in base + cand || r1 in base + cand;
    }
  }

  lemma BaselineSeen(checks: seq<Check>, baseline: Run)
    requires UniqueIds(checks)
    ensures BaselineMatches(checks, Results(checks, baseline, false)) <==> BaselineAsExpected(checks, baseline)
  {
    hide Results, Lookup;
    var base := Results(checks, baseline, false);
    forall c | c in checks
      ensures Lookup(base, c.id) == if Executed(c, false) then Some(baseline(c.id)) else None
    {
      LookupResults(checks, baseline, false, c.id);
      assert forall d :: d in checks && d.id == c.id ==> d == c;
    }
    assert forall c :: c in checks ==> Lookup(base, c.id).Some? == Executed(c, false);
  }

  /** The counting decides exactly the declared verdict. */
  lemma DecideIsDeclared(checks: seq<Check>, baseline: Run, candidate: Run, violations: seq<Severity>)
    requires UniqueIds(checks)
    ensures Decide(checks, baseline, candidate, violations) == DeclaredVerdict(checks, baseline, candidate, violations)
  {
    InfrastructureSeen(checks, baseline, candidate);
    BaselineSeen(checks, baseline);
    CountedSelected(checks);
    SelectedCount(checks, Fixed, baseline, candidate);
    SelectedCount(checks, Kept, baseline, candidate);
    SelectedCount(checks, OneSided, baseline, candidate);
  }

  lemma CountedSelected(checks: seq<Check>)
    ensures |Select(checks, Fixed)| + |Select(checks, Kept)| + |Select(checks, OneSided)| == 0
            <==> !exists c :: c in checks && Counted(c)
  {
    forall c
      ensures c in Select(checks, Fixed) || c in Select(checks, Kept) || c in Select(checks, OneSided)
              <==> c in checks && Counted(c)
    {
      SelectMembers(checks, Fixed, c);
      SelectMembers(checks, Kept, c);
      SelectMembers(checks, OneSided, c);
    }
    if |Select(checks, Fixed)| > 0 { assert Select(checks, Fixed)[0] in Select(checks, Fixed); }
    if |Select(checks, Kept)| > 0 { assert Select(checks, Kept)[0] in Select(checks, Kept); }
    if |Select(checks, OneSided)| > 0 {
      assert Select(checks, OneSided)[0] in Select(checks, OneSided);
    }
  }

  lemma VerifiedIffContractMet(checks: seq<Check>, baseline: Run, candidate: Run, violations: seq<Severity>)
    requires UniqueIds(checks)
    ensures Decide(checks, baseline, candidate, violations) == Verified <==>
            ContractMet(checks, baseline, candidate, violations)
  {
    DecideIsDeclared(checks, baseline, candidate, violations);
  }

  /** VERIFIED, by the kinds of the checks. */
  lemma VerifiedByKinds(checks: seq<Check>, baseline: Run, candidate: Run, violations: seq<Severity>)
    requires UniqueIds(checks)
    ensures Decide(checks, baseline, candidate, violations) == Verified <==>
            && (forall c :: c in checks && (c.kind == Resolution || c.kind == Regression) ==> !baseline(c.id).infrastructureError)
            && (forall c :: c in checks && c.kind != Integrity ==> !candidate(c.id).infrastructureError)
            && (forall c :: c in checks && (c.baselineExpected == Pass || c.baselineExpected == Fail) ==>
                  (c.kind == Resolution || c.kind == Regression)
                  && (baseline(c.id).status == Passed <==> c.baselineExpected == Pass))
            && (exists c :: c in checks && c.required && c.kind in {Resolution, Regression, CandidateOnly, Static})
            && (forall c :: c in checks && c.required && c.kind == Resolution ==>
                  baseline(c.id).status == Failed && candidate(c.id).status == Passed)
            && (forall c :: c in checks && c.required && c.kind == Regression ==>
                  baseline(c.id).status == Passed && candidate(c.id).status == Passed)
            && (forall c :: c in checks && c.required && (c.kind == CandidateOnly || c.kind == Static) ==>
                  candidate(c.id).status == Passed)
            && ErrorSeverity !in violations && Critical !in violations
  {
    DecideIsDeclared(checks, baseline, candidate, violations);
    InfrastructureByKinds(checks, baseline, candidate);
    ExpectationByKinds(checks, baseline);
    hide Infrastructure, BaselineAsExpected, Decide;
  }

  lemma InfrastructureByKinds(checks: seq<Check>, baseline: Run, candidate: Run)
    ensures Infrastructure(checks, baseline, candidate) <==>
            || (exists c :: c in checks && (c.kind == Resolution || c.kind == Regression) && baseline(c.id).infrastructureError)
            || (exists c :: c in checks && c.kind != Integrity && candidate(c.id).infrastructureError)
  {
  }

  lemma ExpectationByKinds(checks: seq<Check>, baseline: Run)
    ensures BaselineAsExpected(checks, baseline) <==>
            forall c :: c in checks && (c.baselineExpected == Pass || c.baselineExpected == Fail) ==>
              (c.kind == Resolution || c.kind == Regression)
              && (baseline(c.id).status == Passed <==> c.baselineExpected == Pass)
  {
  }

  /** The other verdicts, by the kinds of the checks: an infrastructure error first, then what makes a contract inconclusive. */
  lemma StoppedByKinds(checks: seq<Check>, baseline: Run, candidate: Run, violations: seq<Severity>)
    requires UniqueIds(checks)
    ensures var v := Decide(checks, baseline, candidate, violations);
      var broken := (exists c :: c in checks && (c.kind == Resolution || c.kind == Regression) && baseline(c.id).infrastructureError)
                    || (exists c :: c in checks && c.kind != Integrity && candidate(c.id).infrastructureError);
      var unexpected := exists c :: c in checks && (c.baselineExpected == Pass || c.baselineExpected == Fail)
                                    && (c.kind !in {Resolution, Regression}
                                        || (baseline(c.id).status == Passed) != (c.baselineExpected == Pass));
      var empty := forall c :: c in checks && c.required ==> c.kind == Integrity || c.kind == GeneratedTest;
      && (v == InfrastructureError <==> broken)
      && (v == Inconclusive <==> !broken && (unexpected || empty))
      && v != ContractInvalid
  {
    DecideIsDeclared(checks, baseline, candidate, violations);
    InfrastructureByKinds(checks, baseline, candidate);
    ExpectationByKinds(checks, baseline);
    hide Infrastructure, BaselineAsExpected, Decide, Satisfied;
  }

  /** PARTIAL, by the kinds: some but not every required resolution check is fixed, nothing required has regressed. */
  lemma PartialByKinds(checks: seq<Check>, baseline: Run, candidate: Run, violations: seq<Severity>)
    requires UniqueIds(checks) && Decide(checks, baseline, candidate, violations) !in {InfrastructureError, Inconclusive}
    ensures Decide(checks, baseline, candidate, violations) == Partial <==>
            && (exists c :: c in checks && c.required && c.kind == Resolution
                            && baseline(c.id).status == Failed && candidate(c.id).status == Passed)
            && (exists c :: c in checks && c.required && c.kind == Resolution
                            && !(baseline(c.id).status == Failed && candidate(c.id).status == Passed))
            && (forall c :: c in checks && c.required && c.kind == Regression ==>
                  baseline(c.id).status == Passed && candidate(c.id).status == Passed)
            && ErrorSeverity !in violations && Critical !in violations
  {
    DecideIsDeclared(checks, baseline, candidate, violations);
    hide Infrastructure, BaselineAsExpected, Decide;
  }

  lemma SameChecksSameFacts(checks: seq<Check>, checks': seq<Check>, baseline: Run, candidate: Run)
    requires forall c :: c in checks <==> c in checks'
    ensures Infrastructure(checks, baseline, candidate) ==> Infrastructure(checks', baseline, candidate)
    ensures BaselineAsExpected(checks', baseline) ==> BaselineAsExpected(checks, baseline)
    ensures AllCountedSatisfied(checks', baseline, candidate) ==> AllCountedSatisfied(checks, baseline, candidate)
    ensures forall g :: AllSatisfied(checks', g, baseline, candidate) ==> AllSatisfied(checks, g, baseline, candidate)
    ensures forall g :: SomeSatisfied(checks, g, baseline, candidate) ==> SomeSatisfied(checks', g, baseline, candidate)
  {
  }

  /** Any listing of the same checks, and any listing of the same violations, gives the same verdict. */
  lemma OrderIrrelevant(checks: seq<Check>, checks': seq<Check>, baseline: Run, candidate: Run,
                        violations: seq<Severity>, violations': seq<Severity>)
    requires UniqueIds(checks) && UniqueIds(checks')
    requires forall c :: c in checks <==> c in checks'
    requires forall v :: v in violations <==> v in violations'
    ensures Decide(checks, baseline, candidate, violations) == Decide(checks', baseline, candidate, violations')
  {
    DecideIsDeclared(checks, baseline, candidate, violations);
    DecideIsDeclared(checks', baseline, candidate, violations');
    SameChecksSameFacts(checks, checks', baseline, candidate);
    SameChecksSameFacts(checks', checks, baseline, candidate);
  }

  /** `better` differs from `candidate` only by turning failures into passes. */
  ghost predicate Improves(candidate: Run, better: Run) {
    forall id :: better(id) == candidate(id)
                 || (candidate(id).status == Failed && better(id) == candidate(id).(status := Passed))
  }

  lemma ImprovementSatisfies(checks: seq<Check>, baseline: Run, candidate: Run, better: Run)
    requires Improves(candidate, better)
    ensures forall c :: Satisfied(c, baseline, candidate) ==> Satisfied(c, baseline, better)
    ensures Infrastructure(checks, baseline, candidate) <==> Infrastructure(checks, baseline, better)
  {
  }

  /**
   VERIFIED is never lost by an improvement. PARTIAL can be: it falls back to REOPENED exactly when
   the last open resolution check is fixed while a required candidate-only or static check still fails.
   */
  lemma ImprovementEffect(checks: seq<Check>, baseline: Run, candidate: Run, better: Run, violations: seq<Severity>)
    requires UniqueIds(checks) && Improves(candidate, better)
    ensures var v, w := Decide(checks, baseline, candidate, violations), Decide(checks, baseline, better, violations);
      && (v == Verified ==> w == Verified)
      && (v == Partial ==> w in {Partial, Verified, Reopened})
      && (v == Partial ==> (w == Reopened <==> AllSatisfied(checks, Fixed, baseline, better)
                                               && !AllSatisfied(checks, OneSided, baseline, better)))
      && (v in {Inconclusive, InfrastructureError} ==> w == v)
  {
    hide Decide, Infrastructure, BaselineAsExpected, Satisfied, Improves;
    DecideIsDeclared(checks, baseline, candidate, violations);
    DecideIsDeclared(checks, baseline, better, violations);
    ImprovementSatisfies(checks, baseline, candidate, better);
  }

  const FIX_A := Check("a", Resolution, true, Fail)
  const FIX_B := Check("b", Resolution, true, Fail)
  const LINT := Check("s", Static, true, NotRun)

  /** Passes the checks named `a`, and the ones named `b` when asked to. */
  function Passing(a: bool, b: bool): Run {
    (id: string) => if (a && id == "a") || (b && id == "b") then Outcome(Passed, false) else Outcome(Failed, false)
  }

  lemma ExampleOutcomes(a: bool, b: bool)
    ensures !Infrastructure([FIX_A, FIX_B, LINT], Passing(false, false), Passing(a, b))
    ensures BaselineAsExpected([FIX_A, FIX_B, LINT], Passing(false, false))
    ensures Satisfied(FIX_A, Passing(false, false), Passing(a, b)) <==> a
    ensures Satisfied(FIX_B, Passing(false, false), Passing(a, b)) <==> b
    ensures !Satisfied(LINT, Passing(false, false), Passing(a, b))
  {
    assert "a" != "b" && "s" != "a" && "s" != "b";
  }

  lemma ExampleVerdict(a: bool, b: bool)
    ensures UniqueIds([FIX_A, FIX_B, LINT])
    ensures Decide([FIX_A, FIX_B, LINT], Passing(false, false), Passing(a, b), []) == if a == b then Reopened else Partial
  {
    hide Decide, Infrastructure, BaselineAsExpected, Satisfied, Passing;
    var checks := [FIX_A, FIX_B, LINT];
    ExampleOutcomes(a, b);
    DecideIsDeclared(checks, Passing(false, false), Passing(a, b), []);
    assert FIX_A == checks[0] && FIX_B == checks[1] && LINT == checks[2];
    assert Counted(FIX_A) && Counted(FIX_B) && Counted(LINT);
    assert forall c :: c in checks ==> c == FIX_A || c == FIX_B || c == LINT;
  }

  /** Fixing the second resolution check turns PARTIAL into REOPENED while the static check fails. */
  lemma PartialCanFallBack()
    ensures Improves(Passing(true, false), Passing(true, true))
    ensures Decide([FIX_A, FIX_B, LINT], Passing(false, false), Passing(true, false), []) == Partial
    ensures Decide([FIX_A, FIX_B, LINT], Passing(false, false), Passing(true, true), []) == Reopened
  {
    ExampleVerdict(true, false);
    ExampleVerdict(true, true);
  }

  /** An integrity check is never executed, so with a pass or fail expectation no run satisfies the contract. */
  lemma ExpectedIntegrityCheckIsInconclusive(checks: seq<Check>, baseline: Run, candidate: Run, violations: seq<Severity>, c: Check)
    requires UniqueIds(checks) && c in checks && c.kind == Integrity
    requires c.baselineExpected == DefaultExpectation(Integrity)
    ensures Decide(checks, baseline, candidate, violations) ==
            if Infrastructure(checks, baseline, candidate) then InfrastructureError else Inconclusive
  {
    DecideIsDeclared(checks, baseline, candidate, violations);
    assert !BaselineAsExpected(checks, baseline);
  }

  // ---- The gateway ----

  datatype Report = Report(verdict: Verdict, baseline: seq<CheckResult>, candidate: seq<CheckResult>, violations: seq<Severity>)

  /** Everything the outside world contributes to one verification. */
  datatype Evidence =
    | HashMismatch
    | SnapshotFailed
    | Checked(baseline: Run, candidate: Run, violations: seq<Severity>)

  function VerdictFor(checks: seq<Check>, e: Evidence): Verdict {
    match e
    case HashMismatch => ContractInvalid
    case SnapshotFailed => InfrastructureError
    case Checked(b, c, v) => Decide(checks, b, c, v)
  }

  method Verify(checks: seq<Check>, e: Evidence) returns (report: Report)
    ensures report.verdict == VerdictFor(checks, e)
    ensures UniqueIds(checks) ==>
              (report.verdict == Verified <==> e.Checked? && ContractMet(checks, e.baseline, e.candidate, e.violations))
    ensures report.verdict == Verified ==> e.Checked?
    ensures UniqueIds(checks) && report.verdict == Verified ==>
              && (exists c :: c in checks && c.required && c.kind in {Resolution, Regression, CandidateOnly, Static})
              && (forall c :: c in checks && c.required && c.kind == Resolution ==>
                    e.baseline(c.id).status == Failed && e.candidate(c.id).status == Passed)
              && (forall c :: c in checks && c.required && c.kind == Regression ==>
                    e.baseline(c.id).status == Passed && e.candidate(c.id).status == Passed)
              && (forall c :: c in checks && c.required && (c.kind == CandidateOnly || c.kind == Static) ==>
                    e.candidate(c.id).status == Passed)
              && ErrorSeverity !in e.violations && Critical !in e.violations
    ensures e.Checked? ==> report.baseline == Results(checks, e.baseline, false)
                           && report.candidate == Results(checks, e.candidate, true) && report.violations == e.violations
  {
    match e {
      case HashMismatch =>
        return Report(ContractInvalid, [], [], []);
      case SnapshotFailed =>
        return Report(InfrastructureError, [], [], []);
      case Checked(b, c, v) =>
        var baseline := RunChecks(checks, b, false);
        var candidate := RunChecks(checks, c, true);
        var transitions := BuildTransitions(checks, baseline, candidate);
        var verdict := SummarizeAndDecide(checks, transitions, v, baseline, candidate);
        if UniqueIds(checks) {
          VerifiedIffContractMet(checks, b, c, v);
          VerifiedByKinds(checks, b, c, v);
        }
        hide ContractMet, SummarizeAndDecide, BuildTransitions, Results;
        return Report(verdict, baseline, candidate, v);
    }
  }
}
