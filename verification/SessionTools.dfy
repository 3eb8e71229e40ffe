/** The tools of a project session: the knowledge decision comes before edits, verification and terminal signals. */
module SessionTools {
  import opened Common
  import opened Control

  /** The arguments any tool may be given; `valid` says that the tool's own schema accepts them. */
  datatype Arguments = Arguments(
    valid: bool, command: string, external: bool, decompositionRecommended: bool,
    paths: seq<string>, argv: seq<string>, test: Option<Candidate>,
    memoryIds: seq<string>, skillIds: seq<string>, referencedUse: bool)

  datatype ToolCall = ToolCall(id: string, name: string, args: Arguments)

  datatype ErrorType = PolicyGate | GeneratedTestUnmet | ToolError | InvalidArguments | Environment | ProtocolError | OtherError

  datatype ToolResult = ToolResult(success: bool, error: Option<ErrorType>)

  // ---- Knowledge ----

  datatype KnowledgeState = KnowledgeState(decided: bool, memories: set<string>, skills: set<string>, notUsed: bool)

  datatype Exposure = Exposure(memories: set<string>, skills: set<string>)

  predicate Exposed(e: Exposure, a: Arguments) {
    (forall m :: m in a.memoryIds ==> m in e.memories) && (forall s :: s in a.skillIds ==> s in e.skills)
  }

  function AfterDecision(e: Exposure, k: KnowledgeState, a: Arguments): KnowledgeState {
    if !Exposed(e, a) then k
    else if a.memoryIds == [] && a.skillIds == [] then k.(decided := true, notUsed := true)
    else k.(decided := true, memories := k.memories + Elements(a.memoryIds), skills := k.skills + Elements(a.skillIds))
  }

  class KnowledgeUseChannel {
    const exposure: Exposure
    var decided: bool
    var memories: set<string>
    var skills: set<string>
    var notUsed: bool

    constructor (exposure: Exposure)
      ensures this.exposure == exposure && Value() == KnowledgeState(false, {}, {}, false)
    {
      this.exposure := exposure;
      decided, memories, skills, notUsed := false, {}, {}, false;
    }

    function Value(): KnowledgeState
      reads this
    {
      KnowledgeState(decided, memories, skills, notUsed)
    }

    predicate HasExposedKnowledge() {
      exposure.memories != {} || exposure.skills != {}
    }

    /** False for an id that was not exposed; then nothing is recorded. */
    method Record(a: Arguments) returns (ok: bool)
      modifies this
      ensures ok == Exposed(exposure, a) && Value() == AfterDecision(exposure, old(Value()), a)
    {
      if !Exposed(exposure, a) { return false; }
      decided := true;
      if a.memoryIds == [] && a.skillIds == [] {
        notUsed := true;
        return true;
      }
      memories := memories + Elements(a.memoryIds);
      skills := skills + Elements(a.skillIds);
      return true;
    }
  }

  // ---- The gates ----

  datatype RouterConfig = RouterConfig(gate: GateConfig, exposure: Exposure, tools: set<string>)

  /** The value of a session; `log` lists the calls that reached a tool. */
  datatype SessionState = SessionState(channel: ChannelState, knowledge: KnowledgeState, log: seq<ToolCall>)

  predicate Pending(c: RouterConfig, s: SessionState) {
    (c.exposure.memories != {} || c.exposure.skills != {}) && !s.knowledge.decided
  }

  function LowerCase(s: string): (r: string)
    ensures |r| == |s| && forall i :: 0 <= i < |s| ==> r[i] == Lower(s[i])
  {
    seq(|s|, i requires 0 <= i < |s| => Lower(s[i]))
  }

  predicate Contains(s: string, part: string) {
    part <= s || (s != "" && Contains(s[1..], part))
  }

  predicate IsVerificationCommand(command: string) {
    var lowered := LowerCase(command);
    var padded := " " + lowered + " ";
    Contains(lowered, "pytest") || Contains(padded, " validate") || Contains(padded, " test")
  }

  /** Calls that must wait for the knowledge decision. */
  predicate Guarded(call: ToolCall) {
    call.name in ["write_file", "request_task_completion", "report_blocker", "request_decomposition"]
    || (call.name == "bash" && call.args.valid && IsVerificationCommand(call.args.command))
  }

  predicate Runs(c: RouterConfig, call: ToolCall) {
    call.name in c.tools && call.args.valid
  }

  /** The signal a control tool sends, if it sends one. */
  function SignalOf(call: ToolCall): Option<ControlSignal> {
    if call.name == "report_progress" then Some(Progress)
    else if call.name == "report_blocker" && (call.args.external || call.args.decompositionRecommended)
    then Some(Terminal(Blocker(call.args.decompositionRecommended)))
    else if call.name == "request_task_completion" then Some(Terminal(CompletionRequest))
    else if call.name == "request_decomposition" then Some(Terminal(DecompositionRequest))
    else None
  }

  /** The session after a call that reached its tool. */
  function AfterTool(c: RouterConfig, s: SessionState, call: ToolCall): SessionState {
    if SignalOf(call).Some? then s.(channel := AfterRecord(c.gate, s.channel, SignalOf(call).value))
    else if call.name == "register_test_candidate"
    then s.(channel := AfterRegistration(c.gate, s.channel, call.args.paths, call.args.argv, call.args.test))
    else if call.name == "report_knowledge_use" && call.args.referencedUse
    then s.(knowledge := AfterDecision(c.exposure, s.knowledge, call.args))
    else s
  }

  function AfterCall(c: RouterConfig, s: SessionState, call: ToolCall): SessionState {
    if Pending(c, s) && Guarded(call) then s
    else if !Runs(c, call) then s
    else AfterTool(c, s, call).(log := s.log + [call])
  }

  function Start(existing: seq<Candidate>): SessionState {
    SessionState(ChannelState([], existing, [], 0, 0), KnowledgeState(false, {}, {}, false), [])
  }

  function RunCalls(c: RouterConfig, s: SessionState, calls: seq<ToolCall>): SessionState {
    if calls == [] then s else AfterCall(c, RunCalls(c, s, calls[..|calls| - 1]), calls[|calls| - 1])
  }

  // ---- What every session keeps ----

  /** One terminal signal at most; while the decision is open there is none, and nothing guarded has run. */
  ghost predicate Orderly(c: RouterConfig, s: SessionState) {
    && OneTerminal(s.channel.signals)
    && (Pending(c, s) ==> TerminalOf(s.channel.signals).None? && forall call :: call in s.log ==> !Guarded(call))
    && s.knowledge.memories <= c.exposure.memories && s.knowledge.skills <= c.exposure.skills
  }

  lemma OneTerminalStays(g: GateConfig, s: ChannelState, signal: ControlSignal)
    requires OneTerminal(s.signals)
    ensures OneTerminal(AfterRecord(g, s, signal).signals)
  {
    TerminalOfMeans(s.signals);
  }

  lemma CallKeepsOrder(c: RouterConfig, s: SessionState, call: ToolCall)
    requires Orderly(c, s)
    ensures Orderly(c, AfterCall(c, s, call))
  {
    var t := AfterCall(c, s, call);
    if Runs(c, call) && !(Pending(c, s) && Guarded(call)) {
      match SignalOf(call)
      case Some(signal) =>
        OneTerminalStays(c.gate, s.channel, signal);
        if Pending(c, t) {
          assert signal == Progress;
          TerminalOfLonger(s.channel.signals, signal);
        }
      case None =>
        assert t.channel.signals == s.channel.signals;
    }
  }

  /** Whatever an agent calls, the session stays orderly. */
  lemma {:induction false} SessionIsOrderly(c: RouterConfig, existing: seq<Candidate>, calls: seq<ToolCall>)
    ensures Orderly(c, RunCalls(c, Start(existing), calls))
  {
    if calls != [] {
      SessionIsOrderly(c, existing, calls[..|calls| - 1]);
      CallKeepsOrder(c, RunCalls(c, Start(existing), calls[..|calls| - 1]), calls[|calls| - 1]);
    }
  }

  lemma TerminalStaysOnce(c: RouterConfig, s: SessionState, call: ToolCall)
    requires TerminalOf(s.channel.signals).Some?
    ensures TerminalOf(AfterCall(c, s, call).channel.signals) == TerminalOf(s.channel.signals)
  {
    if SignalOf(call).Some? { TerminalOfLonger(s.channel.signals, SignalOf(call).value); }
  }

  /** A terminal signal is never withdrawn or replaced. */
  lemma {:induction false} TerminalIsFinal(c: RouterConfig, s: SessionState, calls: seq<ToolCall>)
    requires TerminalOf(s.channel.signals).Some?
    ensures TerminalOf(RunCalls(c, s, calls).channel.signals) == TerminalOf(s.channel.signals)
  {
    if calls != [] {
      TerminalIsFinal(c, s, calls[..|calls| - 1]);
      TerminalStaysOnce(c, RunCalls(c, s, calls[..|calls| - 1]), calls[|calls| - 1]);
    }
  }

  /** Call `n` requested completion when the tests met the requirement and the knowledge decision was made. */
  ghost predicate RequestedAt(c: RouterConfig, existing: seq<Candidate>, calls: seq<ToolCall>, n: nat) {
    && n < |calls| && calls[n].name == "request_task_completion"
    && var before := RunCalls(c, Start(existing), calls[..n]);
       GateHolds(c.gate, before.channel) && !Pending(c, before) && TerminalOf(before.channel.signals).None?
  }

  /** With an open gate, no exposed knowledge and no signal before, a valid request for completion is accepted. */
  lemma CompletionIsAccepted(c: RouterConfig, s: SessionState, call: ToolCall)
    requires c.exposure.memories == {} && c.exposure.skills == {} && TerminalOf(s.channel.signals).None?
    requires !c.gate.required || (|s.channel.candidates| >= c.gate.minRegistered && ValidCount(s.channel.candidates) >= c.gate.minValid)
    requires call.name == "request_task_completion" && call.name in c.tools && call.args.valid
    ensures RunCalls(c, s, [call]).channel.signals == s.channel.signals + [Terminal(CompletionRequest)]
    ensures TerminalOf(RunCalls(c, s, [call]).channel.signals) == Some(CompletionRequest)
  {
    assert [call][..0] == [] && RunCalls(c, s, []) == s;
    TerminalOfLonger(s.channel.signals, Terminal(CompletionRequest));
  }

  /** What the terminal tools signal, in a session without a signal before and without a gate in the way. */
  lemma ToolsSignal(c: RouterConfig, s: SessionState, call: ToolCall)
    requires c.exposure.memories == {} && c.exposure.skills == {} && TerminalOf(s.channel.signals).None?
    requires !c.gate.required && call.name in c.tools && call.args.valid
    ensures var t := TerminalOf(RunCalls(c, s, [call]).channel.signals);
      && (call.name == "request_task_completion" ==> t == Some(CompletionRequest))
      && (call.name == "request_decomposition" ==> t == Some(DecompositionRequest))
      && (call.name == "report_blocker" ==>
            t == if call.args.decompositionRecommended then Some(Blocker(true)) else if call.args.external then Some(Blocker(false)) else None)
      && (call.name != "request_task_completion" && call.name != "request_decomposition" && call.name != "report_blocker" ==> t.None?)
  {
    assert [call][..0] == [] && RunCalls(c, s, []) == s;
    if SignalOf(call).Some? { TerminalOfLonger(s.channel.signals, SignalOf(call).value); }
  }

  /**
   While knowledge is exposed and nothing was decided about it, no file is written, no terminal tool runs and no command
   that verifies, whatever an agent calls.
   */
  lemma NothingRunsUndecided(c: RouterConfig, existing: seq<Candidate>, calls: seq<ToolCall>, call: ToolCall)
    requires var s := RunCalls(c, Start(existing), calls);
      (c.exposure.memories != {} || c.exposure.skills != {}) && !s.knowledge.decided && call in s.log
    ensures call.name != "write_file" && call.name != "request_task_completion"
    ensures call.name != "report_blocker" && call.name != "request_decomposition"
    ensures call.name == "bash" && call.args.valid ==>
              var lowered := LowerCase(call.args.command);
              !Contains(lowered, "pytest") && !Contains(" " + lowered + " ", " validate") && !Contains(" " + lowered + " ", " test")
  {
    SessionIsOrderly(c, existing, calls);
    assert !Guarded(call);
  }

  /** A session ends with a completion request only if it was made under the gates. */
  lemma {:induction false} CompletionWasGated(c: RouterConfig, existing: seq<Candidate>, calls: seq<ToolCall>)
    ensures TerminalOf(RunCalls(c, Start(existing), calls).channel.signals) == Some(CompletionRequest) ==>
              exists n: nat :: RequestedAt(c, existing, calls, n)
  {
    if calls != [] && TerminalOf(RunCalls(c, Start(existing), calls).channel.signals) == Some(CompletionRequest) {
      var front, last := calls[..|calls| - 1], calls[|calls| - 1];
      var before := RunCalls(c, Start(existing), front);
      if TerminalOf(before.channel.signals).Some? {
        TerminalStaysOnce(c, before, last);
        CompletionWasGated(c, existing, front);
        var n: nat :| RequestedAt(c, existing, front, n);
        assert calls[..n] == front[..n];
        assert RequestedAt(c, existing, calls, n);
      } else {
        if SignalOf(last).Some? { TerminalOfLonger(before.channel.signals, SignalOf(last).value); }
        assert RequestedAt(c, existing, calls, |calls| - 1);
      }
    }
  }

  // ---- When the gate is lost ----

  /** A registration that reaches its tool and spoils the last test the requirement could not do without. */
  predicate LosesGate(c: RouterConfig, s: SessionState, call: ToolCall) {
    && c.gate.required && call.name == "register_test_candidate" && Runs(c, call)
    && Spoils(c.gate, s.channel, call.args.paths, call.args.argv, call.args.test)
    && ValidCount(s.channel.candidates) == c.gate.minValid
  }

  /** Exactly such a call closes the gate. */
  lemma GateAfterCall(c: RouterConfig, s: SessionState, call: ToolCall)
    requires GateHolds(c.gate, s.channel)
    ensures GateHolds(c.gate, AfterCall(c, s, call).channel) <==> !LosesGate(c, s, call)
  {
    hide ValidCount;
    if call.name == "register_test_candidate" {
      GateAfterRegistration(c.gate, s.channel, call.args.paths, call.args.argv, call.args.test);
    }
  }

  ghost predicate HoldsAfter(c: RouterConfig, s: SessionState, calls: seq<ToolCall>, n: nat)
    requires n <= |calls|
  {
    GateHolds(c.gate, RunCalls(c, s, calls[..n]).channel)
  }

  ghost predicate LostAt(c: RouterConfig, s: SessionState, calls: seq<ToolCall>, n: nat)
    requires n < |calls|
  {
    LosesGate(c, RunCalls(c, s, calls[..n]), calls[n])
  }

  lemma GateAtCall(c: RouterConfig, s: SessionState, calls: seq<ToolCall>, n: nat)
    requires n < |calls| && HoldsAfter(c, s, calls, n)
    ensures HoldsAfter(c, s, calls, n + 1) <==> !LostAt(c, s, calls, n)
  {
    assert calls[..n + 1][..n] == calls[..n];
    hide GateHolds, LosesGate;
    GateAfterCall(c, RunCalls(c, s, calls[..n]), calls[n]);
  }

  /** A gate that held after `n` calls and does not hold after `m` was lost in between. */
  lemma {:induction false} LostBetween(c: RouterConfig, s: SessionState, calls: seq<ToolCall>, n: nat, m: nat)
    requires n <= m <= |calls| && HoldsAfter(c, s, calls, n) && !HoldsAfter(c, s, calls, m)
    ensures exists l :: n <= l < m && HoldsAfter(c, s, calls, l) && LostAt(c, s, calls, l)
    decreases m - n
  {
    GateAtCall(c, s, calls, n);
    if !LostAt(c, s, calls, n) { LostBetween(c, s, calls, n + 1, m); }
  }

  /** Over any calls, a gate that holds stays open exactly if no call loses it. */
  lemma GateOverCalls(c: RouterConfig, s: SessionState, calls: seq<ToolCall>)
    requires GateHolds(c.gate, s.channel)
    ensures (forall n :: 0 <= n <= |calls| ==> HoldsAfter(c, s, calls, n)) <==> forall n :: 0 <= n < |calls| ==> !LostAt(c, s, calls, n)
  {
    assert HoldsAfter(c, s, calls, 0);
    hide HoldsAfter, LostAt;
    if forall n :: 0 <= n <= |calls| ==> HoldsAfter(c, s, calls, n) {
      forall n | 0 <= n < |calls|
        ensures !LostAt(c, s, calls, n)
      {
        GateAtCall(c, s, calls, n);
      }
    }
    if forall n :: 0 <= n < |calls| ==> !LostAt(c, s, calls, n) {
      forall n | 0 <= n <= |calls|
        ensures HoldsAfter(c, s, calls, n)
      {
        if !HoldsAfter(c, s, calls, n) { LostBetween(c, s, calls, 0, n); }
      }
    }
  }

  /** A completed session without its gate was completed under it, and lost it by a later registration. */
  lemma CompletedGateWasLost(c: RouterConfig, existing: seq<Candidate>, calls: seq<ToolCall>)
    requires var s := RunCalls(c, Start(existing), calls);
      TerminalOf(s.channel.signals) == Some(CompletionRequest) && !GateHolds(c.gate, s.channel)
    ensures exists n: nat, m: nat :: RequestedAt(c, existing, calls, n) && n < m < |calls| && LostAt(c, Start(existing), calls, m)
  {
    hide *;
    CompletionWasGated(c, existing, calls);
    var n: nat :| RequestedAt(c, existing, calls, n);
    RequestHolds(c, existing, calls, n);
    HoldsAtTheEnd(c, Start(existing), calls);
    LostBetween(c, Start(existing), calls, n, |calls|);
  }

  /** The gate holds when completion is requested, and the request does not close it. */
  lemma RequestHolds(c: RouterConfig, existing: seq<Candidate>, calls: seq<ToolCall>, n: nat)
    requires RequestedAt(c, existing, calls, n)
    ensures n < |calls| && HoldsAfter(c, Start(existing), calls, n) && !LostAt(c, Start(existing), calls, n)
  {
    hide GateHolds, RunCalls;
  }

  lemma HoldsAtTheEnd(c: RouterConfig, s: SessionState, calls: seq<ToolCall>)
    ensures HoldsAfter(c, s, calls, |calls|) <==> GateHolds(c.gate, RunCalls(c, s, calls).channel)
  {
    assert calls[..|calls|] == calls;
    hide GateHolds, RunCalls;
  }

  const NO_ARGUMENTS := Arguments(true, "", false, false, [], [], None, [], [], true)
  const GOOD_TEST := Candidate(["t"], ["run"], true, false, true)

  /** The gate may fail again after completion: the same test, registered once more, may turn out invalid. */
  lemma GateCanBeLost()
    ensures var c := RouterConfig(GateConfig(true, 1, 1, 3, 1, true), Exposure({}, {}),
                                  {"request_task_completion", "register_test_candidate"});
      var calls := [ToolCall("1", "request_task_completion", NO_ARGUMENTS),
                    ToolCall("2", "register_test_candidate",
                             NO_ARGUMENTS.(paths := ["t"], argv := ["run"], test := Some(GOOD_TEST.(valid := false))))];
      var s := RunCalls(c, Start([GOOD_TEST]), calls);
      TerminalOf(s.channel.signals) == Some(CompletionRequest) && !GateHolds(c.gate, s.channel)
  {
    var c := RouterConfig(GateConfig(true, 1, 1, 3, 1, true), Exposure({}, {}),
                          {"request_task_completion", "register_test_candidate"});
    var first := ToolCall("1", "request_task_completion", NO_ARGUMENTS);
    var second := ToolCall("2", "register_test_candidate",
                           NO_ARGUMENTS.(paths := ["t"], argv := ["run"], test := Some(GOOD_TEST.(valid := false))));
    var start := Start([GOOD_TEST]);
    assert [GOOD_TEST][..0] == [] && ValidCount([GOOD_TEST]) == 1;
    var one := AfterCall(c, start, first);
    assert one.channel.signals == [Terminal(CompletionRequest)];
    var two := AfterCall(c, one, second);
    assert two.channel.candidates == [GOOD_TEST.(valid := false)];
    assert two.channel.candidates[..0] == [] && ValidCount(two.channel.candidates) == 0;
    assert [first, second][..1] == [first] && [first][..0] == [];
    assert RunCalls(c, start, [first]) == one;
    assert RunCalls(c, start, [first, second]) == two;
  }

  // ---- The router ----

  function RefusalOf(r: RecordResult): ToolResult {
    match r
    case Recorded => ToolResult(true, None)
    case RequirementUnmet(_) => ToolResult(false, Some(GeneratedTestUnmet))
    case TerminalExists => ToolResult(false, Some(ToolError))
  }

  /** What a tool answers; `work` is the answer of the workspace tools. */
  function ToolAnswer(c: RouterConfig, s: SessionState, call: ToolCall, work: ToolResult): ToolResult {
    if SignalOf(call).Some? then RefusalOf(Control.Answer(c.gate, s.channel, SignalOf(call).value))
    else if call.name == "report_blocker" then ToolResult(false, Some(PolicyGate))
    else if call.name == "register_test_candidate" then
      if RegistrationOf(c.gate, s.channel, call.args.paths, call.args.argv, call.args.test).Registered? then ToolResult(true, None)
      else ToolResult(false, Some(ToolError))
    else if call.name == "report_knowledge_use" then
      if call.args.referencedUse && Exposed(c.exposure, call.args) then ToolResult(true, None) else ToolResult(false, Some(ToolError))
    else work
  }

  function CallAnswer(c: RouterConfig, s: SessionState, call: ToolCall, work: ToolResult): ToolResult {
    if Pending(c, s) && Guarded(call) then ToolResult(false, Some(PolicyGate))
    else if call.name !in c.tools then ToolResult(false, Some(ToolError))
    else if !call.args.valid then ToolResult(false, Some(InvalidArguments))
    else ToolAnswer(c, s, call, work)
  }

  /** A control tool reports success exactly when its signal was recorded. */
  lemma SuccessMeansRecorded(c: RouterConfig, s: SessionState, call: ToolCall, work: ToolResult)
    requires SignalOf(call).Some?
    ensures CallAnswer(c, s, call, work).success <==>
            AfterCall(c, s, call).channel.signals == s.channel.signals + [SignalOf(call).value]
  {
    assert s.channel.signals + [SignalOf(call).value] != s.channel.signals by {
      assert |s.channel.signals + [SignalOf(call).value]| != |s.channel.signals|;
    }
  }

  class SessionRouter {
    const config: RouterConfig
    const channel: TaskControlChannel
    const knowledge: KnowledgeUseChannel
    var log: seq<ToolCall>

    ghost predicate Valid() {
      channel.config == config.gate && knowledge.exposure == config.exposure
    }

    constructor (config: RouterConfig, channel: TaskControlChannel, knowledge: KnowledgeUseChannel)
      requires channel.config == config.gate && knowledge.exposure == config.exposure
      ensures Valid() && this.config == config && this.channel == channel && this.knowledge == knowledge && log == []
    {
      this.config, this.channel, this.knowledge, log := config, channel, knowledge, [];
    }

    function Value(): SessionState
      reads this, channel, knowledge
    {
      SessionState(channel.Value(), knowledge.Value(), log)
    }

    predicate DecisionPending()
      reads this, knowledge
    {
      knowledge.HasExposedKnowledge() && !knowledge.decided
    }

    /** Runs a tool; `work` is what a workspace tool answers. */
    method RunTool(call: ToolCall, work: ToolResult) returns (r: ToolResult)
      requires Valid()
      modifies channel, knowledge
      ensures Value() == AfterTool(config, old(Value()), call) && r == ToolAnswer(config, old(Value()), call, work)
    {
      if call.name == "report_blocker" && !call.args.external && !call.args.decompositionRecommended {
        return ToolResult(false, Some(PolicyGate));
      }
      var signal := SignalOf(call);
      if signal.Some? {
        var answer := channel.Record(signal.value);
        return RefusalOf(answer);
      }
      if call.name == "register_test_candidate" {
        var registration := channel.RegisterTestCandidate(call.args.paths, call.args.argv, call.args.test);
        return if registration.Registered? then ToolResult(true, None) else ToolResult(false, Some(ToolError));
      }
      if call.name == "report_knowledge_use" {
        if !call.args.referencedUse { return ToolResult(false, Some(ToolError)); }
        var ok := knowledge.Record(call.args);
        return if ok then ToolResult(true, None) else ToolResult(false, Some(ToolError));
      }
      return work;
    }

    method Execute(call: ToolCall, work: ToolResult) returns (r: ToolResult)
      requires Valid()
      modifies this`log, channel, knowledge
      ensures Value() == AfterCall(config, old(Value()), call)
      ensures r == CallAnswer(config, old(Value()), call, work)
    {
      if DecisionPending() && Guarded(call) { return ToolResult(false, Some(PolicyGate)); }
      if call.name !in config.tools { return ToolResult(false, Some(ToolError)); }
      if !call.args.valid { return ToolResult(false, Some(InvalidArguments)); }
      r := RunTool(call, work);
      log := log + [call];
    }
  }
}
