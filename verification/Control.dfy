/** The control channel of a session: the signals an agent sends, and the generated-test gate before completion. */
module Control {
  import opened Common

  datatype TerminalSignal = CompletionRequest | Blocker(decompositionRecommended: bool) | DecompositionRequest

  datatype ControlSignal = Progress | Terminal(signal: TerminalSignal)

  /** A registered test; `complete` says that a transition and both results are recorded. */
  datatype Candidate = Candidate(paths: seq<string>, argv: seq<string>, valid: bool, irrelevant: bool, complete: bool)

  datatype GateConfig = GateConfig(
    required: bool, minRegistered: nat, minValid: nat, maxAttempts: nat, maxCandidates: nat, configured: bool)

  /** The value of a channel. */
  datatype ChannelState = ChannelState(
    signals: seq<ControlSignal>, candidates: seq<Candidate>, newCandidates: seq<Candidate>, attempts: nat, completionRequests: nat)

  function TerminalOf(signals: seq<ControlSignal>): Option<TerminalSignal> {
    if signals == [] then None
    else if signals[0].Terminal? then Some(signals[0].signal)
    else TerminalOf(signals[1..])
  }

  predicate Counts(c: Candidate) {
    c.valid && !c.irrelevant && c.complete
  }

  function ValidCount(cs: seq<Candidate>): nat {
    if cs == [] then 0 else ValidCount(cs[..|cs| - 1]) + if Counts(cs[|cs| - 1]) then 1 else 0
  }

  /** May completion be requested? */
  predicate GateHolds(c: GateConfig, s: ChannelState) {
    !c.required || (|s.candidates| >= c.minRegistered && ValidCount(s.candidates) >= c.minValid)
  }

  datatype RecordResult = Recorded | RequirementUnmet(retryable: bool) | TerminalExists

  function CountRequest(s: ChannelState, signal: ControlSignal): ChannelState {
    if signal == Terminal(CompletionRequest) then s.(completionRequests := s.completionRequests + 1) else s
  }

  function Answer(c: GateConfig, s: ChannelState, signal: ControlSignal): RecordResult {
    if signal == Terminal(CompletionRequest) && !GateHolds(c, s) then RequirementUnmet(s.attempts < c.maxAttempts)
    else if signal.Terminal? && TerminalOf(s.signals).Some? then TerminalExists
    else Recorded
  }

  function AfterRecord(c: GateConfig, s: ChannelState, signal: ControlSignal): ChannelState {
    var t := CountRequest(s, signal);
    if Answer(c, s, signal).Recorded? then t.(signals := t.signals + [signal]) else t
  }

  // ---- Registration ----

  predicate SameTest(c: Candidate, paths: seq<string>, argv: seq<string>) {
    c.paths == paths && c.argv == argv
  }

  /** Index of the first candidate for this test, or the length of the list. */
  function FindTest(cs: seq<Candidate>, paths: seq<string>, argv: seq<string>): (k: nat)
    ensures k <= |cs| && (k < |cs| ==> SameTest(cs[k], paths, argv))
    ensures forall i :: 0 <= i < k ==> !SameTest(cs[i], paths, argv)
  {
    if cs == [] || SameTest(cs[0], paths, argv) then 0
    else
      assert forall i :: 1 <= i < |cs| ==> cs[i] == cs[1..][i - 1];
      1 + FindTest(cs[1..], paths, argv)
  }

  datatype Registration = Registered | NotConfigured | TooManyAttempts | TooManyCandidates | Refused

  /** `outcome` is what checking and validating the test gives; `None` if that fails. */
  function RegistrationOf(c: GateConfig, s: ChannelState, paths: seq<string>, argv: seq<string>, outcome: Option<Candidate>)
    : Registration
  {
    if !c.configured then NotConfigured
    else if s.attempts >= c.maxAttempts then TooManyAttempts
    else if FindTest(s.candidates, paths, argv) == |s.candidates| >= c.maxCandidates then TooManyCandidates
    else if outcome.None? then Refused
    else Registered
  }

  function AfterRegistration(c: GateConfig, s: ChannelState, paths: seq<string>, argv: seq<string>, outcome: Option<Candidate>)
    : ChannelState
  {
    var r := RegistrationOf(c, s, paths, argv, outcome);
    if r.NotConfigured? || r.TooManyAttempts? then s
    else
      var t := s.(attempts := s.attempts + 1);
      if !r.Registered? then t
      else
        var k := FindTest(s.candidates, paths, argv);
        var stored := if k < |s.candidates| then s.candidates[k := outcome.value] else s.candidates + [outcome.value];
        t.(candidates := stored, newCandidates := s.newCandidates + [outcome.value])
  }

  lemma FindTestMeans(cs: seq<Candidate>, paths: seq<string>, argv: seq<string>)
    ensures FindTest(cs, paths, argv) < |cs| <==> exists i :: 0 <= i < |cs| && cs[i].paths == paths && cs[i].argv == argv
  {
  }

  /** The places of the tests that count: they are valid, relevant and fully recorded. */
  ghost function Counting(cs: seq<Candidate>): set<nat> {
    set i: nat | i < |cs| && cs[i].valid && !cs[i].irrelevant && cs[i].complete
  }

  lemma {:induction false} ValidCountMeans(cs: seq<Candidate>)
    ensures ValidCount(cs) == |Counting(cs)|
  {
    if cs == [] {
      assert Counting(cs) == {};
    } else {
      var n := |cs| - 1;
      ValidCountMeans(cs[..n]);
      assert Counting(cs) == Counting(cs[..n]) + if cs[n].valid && !cs[n].irrelevant && cs[n].complete then {n} else {};
    }
  }

  class TaskControlChannel {
    const config: GateConfig
    var signals: seq<ControlSignal>
    var candidates: seq<Candidate>
    var newCandidates: seq<Candidate>
    var attempts: nat
    var completionRequests: nat

    constructor (config: GateConfig, existing: seq<Candidate>)
      ensures this.config == config && Value() == ChannelState([], existing, [], 0, 0)
    {
      this.config := config;
      signals, candidates, newCandidates, attempts, completionRequests := [], existing, [], 0, 0;
    }

    function Value(): ChannelState
      reads this
    {
      ChannelState(signals, candidates, newCandidates, attempts, completionRequests)
    }

    method FindTerminal() returns (t: Option<TerminalSignal>)
      ensures t == TerminalOf(signals)
    {
      for i := 0 to |signals|
        invariant TerminalOf(signals[i..]) == TerminalOf(signals)
      {
        assert signals[i..][1..] == signals[i + 1..];
        if signals[i].Terminal? { return Some(signals[i].signal); }
      }
      return None;
    }

    method CountValid() returns (n: nat)
      ensures n == ValidCount(candidates)
    {
      n := 0;
      for i := 0 to |candidates|
        invariant n == ValidCount(candidates[..i])
      {
        assert candidates[..i + 1][..i] == candidates[..i];
        if Counts(candidates[i]) { n := n + 1; }
      }
      assert candidates[..|candidates|] == candidates;
    }

    method RequirementError() returns (error: Option<RecordResult>)
      ensures error == if GateHolds(config, Value()) then None else Some(RequirementUnmet(attempts < config.maxAttempts))
    {
      if !config.required { return None; }
      var valid := CountValid();
      if |candidates| >= config.minRegistered && valid >= config.minValid { return None; }
      return Some(RequirementUnmet(attempts < config.maxAttempts));
    }

    method Record(signal: ControlSignal) returns (r: RecordResult)
      modifies this`signals, this`completionRequests
      ensures Value() == AfterRecord(config, old(Value()), signal) && r == Answer(config, old(Value()), signal)
      ensures var ungated := config.required
                && (|old(candidates)| < config.minRegistered || |Counting(old(candidates))| < config.minValid);
        var refused := (signal == Terminal(CompletionRequest) && ungated)
                       || (signal.Terminal? && exists i :: 0 <= i < |old(signals)| && old(signals)[i].Terminal?);
        && signals == (if refused then old(signals) else old(signals) + [signal])
        && (r.Recorded? <==> !refused)
        && completionRequests == old(completionRequests) + if signal == Terminal(CompletionRequest) then 1 else 0
    {
      ValidCountMeans(candidates);
      TerminalOfMeans(signals);
      if signal == Terminal(CompletionRequest) {
        completionRequests := completionRequests + 1;
        var error := RequirementError();
        if error.Some? { return error.value; }
      }
      if signal.Terminal? {
        var terminal := FindTerminal();
        if terminal.Some? { return TerminalExists; }
      }
      signals := signals + [signal];
      return Recorded;
    }

    method RegisterTestCandidate(paths: seq<string>, argv: seq<string>, outcome: Option<Candidate>) returns (r: Registration)
      modifies this`candidates, this`newCandidates, this`attempts
      ensures Value() == AfterRegistration(config, old(Value()), paths, argv, outcome)
      ensures r == RegistrationOf(config, old(Value()), paths, argv, outcome)
      ensures var known := exists i :: 0 <= i < |old(candidates)| && old(candidates)[i].paths == paths && old(candidates)[i].argv == argv;
        && (r.Registered? <==> config.configured && old(attempts) < config.maxAttempts
                               && (known || |old(candidates)| < config.maxCandidates) && outcome.Some?)
        && attempts == old(attempts) + (if config.configured && old(attempts) < config.maxAttempts then 1 else 0)
        && (!r.Registered? ==> candidates == old(candidates) && newCandidates == old(newCandidates))
        && (r.Registered? ==> outcome.value in candidates && newCandidates == old(newCandidates) + [outcome.value]
                              && |candidates| == |old(candidates)| + if known then 0 else 1)
      ensures signals == old(signals)
    {
      FindTestMeans(candidates, paths, argv);
      if !config.configured { return NotConfigured; }
      if attempts >= config.maxAttempts { return TooManyAttempts; }
      attempts := attempts + 1;
      var k := FindTest(candidates, paths, argv);
      if k == |candidates| && |candidates| >= config.maxCandidates { return TooManyCandidates; }
      if outcome.None? { return Refused; }
      if k < |candidates| {
        candidates := candidates[k := outcome.value];
        assert candidates[k] == outcome.value;
      } else {
        candidates := candidates + [outcome.value];
      }
      newCandidates := newCandidates + [outcome.value];
      return Registered;
    }
  }

  // ---- Facts about the gate ----

  lemma {:induction false} ValidCountUpdate(cs: seq<Candidate>, k: nat, c: Candidate)
    requires k < |cs|
    ensures ValidCount(cs[k := c]) == ValidCount(cs) - (if Counts(cs[k]) then 1 else 0) + if Counts(c) then 1 else 0
  {
    var n := |cs| - 1;
    if k == n {
      assert cs[k := c][..n] == cs[..n];
    } else {
      ValidCountUpdate(cs[..n], k, c);
      assert cs[k := c][..n] == cs[..n][k := c];
    }
  }

  /** The registration succeeds and replaces a test that counts by one that does not. */
  predicate Spoils(c: GateConfig, s: ChannelState, paths: seq<string>, argv: seq<string>, outcome: Option<Candidate>) {
    var k := FindTest(s.candidates, paths, argv);
    RegistrationOf(c, s, paths, argv, outcome).Registered? && k < |s.candidates|
    && Counts(s.candidates[k]) && !Counts(outcome.value)
  }

  /** A registration closes the gate exactly if it spoils a test none of which was to spare. */
  lemma GateAfterRegistration(c: GateConfig, s: ChannelState, paths: seq<string>, argv: seq<string>, outcome: Option<Candidate>)
    requires GateHolds(c, s)
    ensures GateHolds(c, AfterRegistration(c, s, paths, argv, outcome)) <==>
            !(c.required && Spoils(c, s, paths, argv, outcome) && ValidCount(s.candidates) == c.minValid)
  {
    var k := FindTest(s.candidates, paths, argv);
    if RegistrationOf(c, s, paths, argv, outcome).Registered? {
      if k < |s.candidates| {
        ValidCountUpdate(s.candidates, k, outcome.value);
      } else {
        assert (s.candidates + [outcome.value])[..|s.candidates|] == s.candidates;
      }
    }
  }

  // ---- Facts about signals ----

  lemma {:induction false} TerminalOfLonger(signals: seq<ControlSignal>, s: ControlSignal)
    ensures TerminalOf(signals + [s]) ==
            if TerminalOf(signals).Some? then TerminalOf(signals) else if s.Terminal? then Some(s.signal) else None
  {
    if signals != [] {
      assert (signals + [s])[1..] == signals[1..] + [s];
      TerminalOfLonger(signals[1..], s);
    }
  }

  lemma {:induction false} TerminalOfMeans(signals: seq<ControlSignal>)
    ensures TerminalOf(signals).Some? <==> exists i :: 0 <= i < |signals| && signals[i].Terminal?
    ensures TerminalOf(signals).Some? ==> exists i :: 0 <= i < |signals| && signals[i] == Terminal(TerminalOf(signals).value)
  {
    if signals != [] {
      TerminalOfMeans(signals[1..]);
      assert forall i :: 1 <= i < |signals| ==> signals[i] == signals[1..][i - 1];
      assert signals[0].Terminal? ==> signals[0] == Terminal(TerminalOf(signals).value);
      if !signals[0].Terminal? && TerminalOf(signals).Some? {
        var i :| 0 <= i < |signals[1..]| && signals[1..][i] == Terminal(TerminalOf(signals).value);
        assert signals[i + 1] == Terminal(TerminalOf(signals).value);
      }
    }
  }

  /** At most one signal ends the session. */
  ghost predicate OneTerminal(signals: seq<ControlSignal>) {
    forall i, j :: 0 <= i < j < |signals| ==> !(signals[i].Terminal? && signals[j].Terminal?)
  }
}
