/** The loop of one session: prepare the context, ask the model, run its tool calls, until a signal or a limit. */
module AgentLoop {
  import opened Common
  import opened Messages
  import opened Buffer
  import opened Budget
  import opened Staleness
  import opened Lifecycle
  import opened Control
  import opened SessionTools

  /** `project` sessions must end with a terminal signal; `workflow` is the generated-test workflow. */
  datatype LoopConfig = LoopConfig(maxSteps: nat, maxErrors: nat, graceTurns: nat, retries: nat, project: bool, workflow: bool)

  datatype Response = Response(final: Option<string>, content: string, calls: seq<ToolCall>, rawCalls: Option<seq<Call>>)

  datatype Generated = Responded(response: Response) | BadArguments | ProviderFailed

  datatype Work = Work(result: ToolResult, content: Content)

  /** What the model, the workspace tools and the clock do, by request number and by point in time. */
  datatype LoopWorld = LoopWorld(
    generate: nat -> Generated, work: nat -> Work, late: nat -> bool, evidence: nat -> bool, reminderDue: nat -> bool,
    actionRequired: nat -> bool)

  datatype RunStatus =
    | Completed | MaxStepsReached | TimeLimit | FinalWithoutSignal | SignalMissing | Aborted | ProviderError
    | ProtocolFailure | ContextExhausted

  datatype Request = Request(messages: seq<Message>, tools: seq<Tool>)

  /** What a turn of the loop leads to; `Crashed` stands for an error the loop does not handle. */
  datatype Next = Continue | Stop(status: RunStatus) | Crashed

  const TERMINAL_TOOLS := ["request_task_completion", "report_blocker", "report_knowledge_use", "report_progress"]

  function TerminalOnly(tools: seq<Tool>): seq<Tool> {
    if tools == [] then []
    else if tools[0] in TERMINAL_TOOLS then [tools[0]] + TerminalOnly(tools[1..])
    else TerminalOnly(tools[1..])
  }

  /** Exactly the four terminal tools remain, in their order. */
  lemma {:induction false} TerminalOnlyMeans(tools: seq<Tool>, t: Tool)
    ensures t in TerminalOnly(tools) <==>
            t in tools && t in ["request_task_completion", "report_blocker", "report_knowledge_use", "report_progress"]
    ensures IsSubsequence(TerminalOnly(tools), tools)
  {
    if tools != [] { TerminalOnlyMeans(tools[1..], t); }
  }

  function Named(calls: seq<ToolCall>, name: string, same: bool): seq<ToolCall> {
    if calls == [] then []
    else if (calls[0].name == name) == same then [calls[0]] + Named(calls[1..], name, same)
    else Named(calls[1..], name, same)
  }

  /** Knowledge reports come first. */
  function Ordered(calls: seq<ToolCall>): seq<ToolCall> {
    Named(calls, "report_knowledge_use", true) + Named(calls, "report_knowledge_use", false)
  }

  lemma {:induction false} OrderedKeepsCalls(calls: seq<ToolCall>)
    ensures multiset(Ordered(calls)) == multiset(calls) && |Ordered(calls)| == |calls|
    ensures forall i, j :: 0 <= i < j < |calls| && Ordered(calls)[j].name == "report_knowledge_use" ==>
              Ordered(calls)[i].name == "report_knowledge_use"
    ensures forall same :: Named(Ordered(calls), "report_knowledge_use", same) == Named(calls, "report_knowledge_use", same)
  {
    NamedSplits(calls, "report_knowledge_use");
    OrderIsStable(calls, "report_knowledge_use", true);
    OrderIsStable(calls, "report_knowledge_use", false);
    NamedAreNamed(calls, "report_knowledge_use", true);
    NamedAreNamed(calls, "report_knowledge_use", false);
  }

  lemma {:induction false} NamedSplits(calls: seq<ToolCall>, name: string)
    ensures multiset(Named(calls, name, true) + Named(calls, name, false)) == multiset(calls)
    ensures |Named(calls, name, true)| + |Named(calls, name, false)| == |calls|
  {
    if calls != [] {
      NamedSplits(calls[1..], name);
      assert calls == [calls[0]] + calls[1..];
    }
  }

  lemma {:induction false} NamedJoins(a: seq<ToolCall>, b: seq<ToolCall>, name: string, same: bool)
    ensures Named(a + b, name, same) == Named(a, name, same) + Named(b, name, same)
  {
    if a == [] {
      assert a + b == b;
    } else {
      assert (a + b)[1..] == a[1..] + b;
      NamedJoins(a[1..], b, name, same);
    }
  }

  lemma {:induction false} NamedTwice(calls: seq<ToolCall>, name: string, first: bool, same: bool)
    ensures Named(Named(calls, name, first), name, same) == if same == first then Named(calls, name, first) else []
  {
    if calls != [] {
      NamedTwice(calls[1..], name, first, same);
      if (calls[0].name == name) == first { assert Named(calls, name, first)[1..] == Named(calls[1..], name, first); }
    }
  }

  /** Calls with the name keep their order, and so do the others. */
  lemma OrderIsStable(calls: seq<ToolCall>, name: string, same: bool)
    ensures Named(Named(calls, name, true) + Named(calls, name, false), name, same) == Named(calls, name, same)
  {
    NamedJoins(Named(calls, name, true), Named(calls, name, false), name, same);
    NamedTwice(calls, name, true, same);
    NamedTwice(calls, name, false, same);
  }

  lemma {:induction false} NamedAreNamed(calls: seq<ToolCall>, name: string, same: bool)
    ensures forall i :: 0 <= i < |Named(calls, name, same)| ==> ((Named(calls, name, same)[i].name == name) == same)
  {
    if calls != [] { NamedAreNamed(calls[1..], name, same); }
  }

  function AskedCalls(calls: seq<ToolCall>): (r: seq<Call>)
    ensures |r| == |calls| && forall i :: 0 <= i < |calls| ==> r[i] == Call(calls[i].id, calls[i].name)
  {
    seq(|calls|, i requires 0 <= i < |calls| => Call(calls[i].id, calls[i].name))
  }

  function IdsOf(calls: seq<ToolCall>): (ids: seq<string>)
    ensures |ids| == |calls| && forall i :: 0 <= i < |calls| ==> ids[i] == calls[i].id
  {
    seq(|calls|, i requires 0 <= i < |calls| => calls[i].id)
  }

  function CountErrors(errors: nat, r: ToolResult): nat {
    if r.success then 0
    else if r.error == Some(Environment) || r.error == Some(PolicyGate) || r.error == Some(GeneratedTestUnmet) then errors
    else errors + 1
  }

  // ---- What a session amounts to ----

  /** Does a result count as an error? Failures of the environment and refusals by a gate do not. */
  predicate CountsAsError(r: ToolResult) {
    !r.success && r.error !in {Some(Environment), Some(PolicyGate), Some(GeneratedTestUnmet)}
  }

  /** What the router answers to each call. */
  function CallAnswers(c: RouterConfig, s: SessionState, calls: seq<ToolCall>, work: nat -> Work, first: nat): (r: seq<ToolResult>)
    ensures |r| == |calls|
    ensures forall i :: 0 <= i < |calls| ==> r[i] == CallAnswer(c, RunCalls(c, s, calls[..i]), calls[i], work(first + i).result)
  {
    seq(|calls|, i requires 0 <= i < |calls| => CallAnswer(c, RunCalls(c, s, calls[..i]), calls[i], work(first + i).result))
  }

  function ErrorsAfter(answers: seq<ToolResult>, errors: nat): nat {
    if answers == [] then errors else CountErrors(ErrorsAfter(answers[..|answers| - 1], errors), answers[|answers| - 1])
  }

  lemma OneMoreCounted(c: RouterConfig, s: SessionState, calls: seq<ToolCall>, work: nat -> Work, first: nat, errors: nat, i: nat)
    requires i < |calls|
    ensures var answers := CallAnswers(c, s, calls, work, first);
      ErrorsAfter(answers[..i + 1], errors) ==
      CountErrors(ErrorsAfter(answers[..i], errors), CallAnswer(c, RunCalls(c, s, calls[..i]), calls[i], work(first + i).result))
  {
    hide CallAnswer, CountErrors, RunCalls;
    var answers := CallAnswers(c, s, calls, work, first);
    assert answers[..i + 1][..i] == answers[..i];
  }

  lemma NoneCounted(errors: nat)
    ensures ErrorsAfter([], errors) == errors
  {
  }

  /** The places of the errors from `m` on. */
  ghost function ErrorsFrom(answers: seq<ToolResult>, m: nat): set<nat> {
    set i: nat | m <= i < |answers| && CountsAsError(answers[i])
  }

  lemma OneMoreError(answers: seq<ToolResult>, m: nat)
    requires answers != [] && m < |answers|
    ensures var n := |answers| - 1;
      |ErrorsFrom(answers, m)| == |ErrorsFrom(answers[..n], m)| + if CountsAsError(answers[n]) then 1 else 0
  {
    hide CountsAsError;
    var n := |answers| - 1;
    var before := ErrorsFrom(answers[..n], m);
    assert ErrorsFrom(answers, m) == before + if CountsAsError(answers[n]) then {n} else {};
    assert n !in before;
  }

  /** The error count is the number of errors since the last success, or since the beginning and on top of it. */
  lemma {:induction false} ErrorsSinceSuccess(answers: seq<ToolResult>, errors: nat) returns (m: nat)
    ensures m <= |answers| && (m > 0 ==> answers[m - 1].success) && forall i :: m <= i < |answers| ==> !answers[i].success
    ensures ErrorsAfter(answers, errors) == (if m == 0 then errors else 0) + |ErrorsFrom(answers, m)|
  {
    if answers == [] {
      m := 0;
      assert ErrorsFrom(answers, 0) == {};
    } else {
      var n := |answers| - 1;
      m := ErrorsSinceSuccess(answers[..n], errors);
      OneMoreError(answers, m);
      if answers[n].success {
        m := n + 1;
        assert ErrorsFrom(answers, m) == {};
      } else {
        hide ErrorsFrom;
        assert forall i :: m <= i < n ==> !answers[..n][i].success;
      }
    }
  }

  /** The calls of a response in the order they run, and none where there is no response. */
  function CallsOf(g: Generated): seq<ToolCall> {
    if g.Responded? then Ordered(g.response.calls) else []
  }

  /** The calls of the responses to the first `n` requests, in the order of the requests. */
  function Asked(w: LoopWorld, n: nat): seq<ToolCall> {
    if n == 0 then [] else Asked(w, n - 1) + CallsOf(w.generate(n - 1))
  }

  /** How many of the first `n` requests got a response. */
  function Responses(w: LoopWorld, n: nat): nat {
    if n == 0 then 0 else Responses(w, n - 1) + if w.generate(n - 1).Responded? then 1 else 0
  }

  /** Among the first `n` responses is a final answer without calls. */
  ghost predicate AnsweredFinally(w: LoopWorld, n: nat) {
    exists i: nat :: i < n && FinalAnswer(w.generate(i))
  }

  predicate FinalAnswer(g: Generated) {
    g.Responded? && g.response.final.Some? && g.response.calls == []
  }

  /** Requests without a response add nothing. */
  lemma {:induction false} NothingAsked(w: LoopWorld, m: nat, n: nat)
    requires m <= n && forall i :: m <= i < n ==> !w.generate(i).Responded?
    ensures Asked(w, n) == Asked(w, m) && Responses(w, n) == Responses(w, m)
    ensures AnsweredFinally(w, n) <==> AnsweredFinally(w, m)
    decreases n - m
  {
    if m < n { NothingAsked(w, m, n - 1); }
  }

  /** Of the requests from `m` to `n` only the last may have a response. */
  ghost predicate OneAnswer(w: LoopWorld, m: nat, n: nat) {
    m <= n && forall i :: m <= i < n - 1 ==> !w.generate(i).Responded?
  }

  /** The response to the last request, if there was one and it was answered. */
  function LastAnswer(w: LoopWorld, m: nat, n: nat): Option<Response> {
    if m < n && w.generate(n - 1).Responded? then Some(w.generate(n - 1).response) else None
  }

  lemma AnswersMean(w: LoopWorld, m: nat, n: nat)
    requires m < n && forall i :: m <= i < n - 1 ==> w.generate(i).BadArguments?
    ensures OneAnswer(w, m, n)
    ensures LastAnswer(w, m, n) == if w.generate(n - 1).Responded? then Some(w.generate(n - 1).response) else None
  {
  }

  lemma LastAnswerMeans(w: LoopWorld, m: nat, n: nat)
    requires m <= n
    ensures var r := LastAnswer(w, m, n);
      (r.Some? && r.value.final.Some? && r.value.calls == []) <==> n > m && FinalAnswer(w.generate(n - 1))
  {
  }

  lemma OneMoreAnswer(w: LoopWorld, m: nat, n: nat)
    requires OneAnswer(w, m, n)
    ensures var r := LastAnswer(w, m, n);
      && Asked(w, n) == Asked(w, m) + (if r.Some? then Ordered(r.value.calls) else [])
      && Responses(w, n) == Responses(w, m) + (if r.Some? then 1 else 0)
      && (AnsweredFinally(w, n) <==> AnsweredFinally(w, m) || (r.Some? && r.value.final.Some? && r.value.calls == []))
    ensures forall i :: m <= i < n ==> Asked(w, i) == Asked(w, m)
  {
    hide Ordered;
    forall i | m <= i < n
      ensures Asked(w, i) == Asked(w, m)
    {
      NothingAsked(w, m, i);
    }
    if m < n {
      NothingAsked(w, m, n - 1);
      assert AnsweredFinally(w, n) <==> AnsweredFinally(w, n - 1) || FinalAnswer(w.generate(n - 1));
    }
  }

  /** Each of the ids is one that was asked for, and none occurs twice. */
  ghost predicate AnswersTo(asked: seq<string>, ids: seq<string>) {
    Distinct(ids) && forall i :: 0 <= i < |ids| ==> ids[i] in asked
  }

  lemma NoIds(asked: seq<string>)
    ensures AnswersTo(asked, IdsOf([])) && ReplyIds([]) == IdsOf([])
  {
  }

  /** One more id fits exactly if it was asked for and is new; if it does not fit, neither does the whole list. */
  lemma OneMoreId(asked: seq<string>, calls: seq<ToolCall>, i: nat)
    requires i < |calls| && AnswersTo(asked, IdsOf(calls[..i]))
    ensures IdsOf(calls[..i + 1]) == IdsOf(calls[..i]) + [calls[i].id]
    ensures AnswersTo(asked, IdsOf(calls[..i + 1])) <==> calls[i].id in asked && calls[i].id !in IdsOf(calls[..i])
    ensures !AnswersTo(asked, IdsOf(calls[..i + 1])) ==> !AnswersTo(asked, IdsOf(calls))
  {
    var before, ids := IdsOf(calls[..i]), IdsOf(calls[..i + 1]);
    assert ids == before + [calls[i].id];
    assert forall j :: 0 <= j <= i ==> ids[j] == IdsOf(calls)[j];
    if AnswersTo(asked, ids) { assert ids[i] in asked; }
  }

  /** The calls of the response can be recorded: its ids are there, each is answered once, and none is left over. */
  ghost predicate Recordable(r: Response) {
    var ids := IdsOf(Ordered(r.calls));
    var asked := if r.rawCalls.Some? then CallIds(r.rawCalls.value) else ids;
    asked != [] && "" !in asked && Distinct(ids) && SameElements(asked, ids)
  }

  lemma RecordableMeans(r: Response)
    ensures var calls := Ordered(r.calls);
      var asked := if r.rawCalls.Some? then r.rawCalls.value else AskedCalls(calls);
      && (Recordable(r) ==> asked != [] && "" !in CallIds(asked) && AnswersTo(CallIds(asked), IdsOf(calls)))
      && (asked != [] && "" !in CallIds(asked) && AnswersTo(CallIds(asked), IdsOf(calls)) ==>
            (Recordable(r) <==> SameElements(CallIds(asked), IdsOf(calls))))
      && (AnswersTo(CallIds(asked), IdsOf(calls)) ==> Distinct(IdsOf(calls)))
  {
    hide Ordered;
    var calls := Ordered(r.calls);
    assert CallIds(AskedCalls(calls)) == IdsOf(calls);
    assert forall x :: x in IdsOf(calls) ==> exists i :: 0 <= i < |calls| && IdsOf(calls)[i] == x;
  }

  /** The item is the turn that answers exactly the calls of the response. */
  ghost predicate IsTurnOf(item: Item, r: Response, step: nat) {
    && item.ToolTurn? && item.turn.step == step && item.turn.content == r.content
    && ReplyIds(item.turn.replies) == IdsOf(Ordered(r.calls))
  }

  lemma OneMoreReply(replies: seq<Reply>, reply: Reply)
    ensures ReplyIds(replies + [reply]) == ReplyIds(replies) + [reply.callId]
  {
  }

  lemma NothingOrdered()
    ensures Ordered([]) == []
  {
  }

  lemma RunNothing(c: RouterConfig, s: SessionState)
    ensures RunCalls(c, s, []) == s
  {
  }

  lemma RunOneMore(c: RouterConfig, s: SessionState, calls: seq<ToolCall>, call: ToolCall)
    ensures RunCalls(c, s, calls + [call]) == AfterCall(c, RunCalls(c, s, calls), call)
  {
    assert (calls + [call])[..|calls|] == calls;
  }

  class AgentLoop {
    const config: LoopConfig
    const world: LoopWorld
    const tools: seq<Tool>
    const manager: ContextLifecycleManager
    const buffer: ContextBuffer
    const router: SessionRouter
    /** Every list handed to the model, with the tools offered. */
    var sent: seq<Request>
    var errors: nat
    var seenFinal: bool
    var tick: nat
    /** The tests known when the session began, and all calls routed since. */
    const existing: seq<Candidate>
    ghost var history: seq<ToolCall>

    constructor (config: LoopConfig, world: LoopWorld, tools: seq<Tool>, manager: ContextLifecycleManager,
                 router: SessionRouter, system: string, anchor: string)
      requires manager.Valid() && router.Valid() && router.Value() == Start(router.channel.candidates)
      ensures this.config == config && this.world == world && this.tools == tools
      ensures this.manager == manager && this.router == router && fresh(buffer)
      ensures existing == router.channel.candidates && history == []
      ensures sent == [] && errors == 0 && !seenFinal && Valid() && buffer.active.None? && InOrder()
    {
      this.config, this.world, this.tools, this.manager, this.router := config, world, tools, manager, router;
      buffer := new ContextBuffer(system, anchor);
      sent, errors, seenFinal, tick := [], 0, false, 0;
      existing := router.channel.candidates;
      history := [];
    }

    /** The main property: whatever was sent was well paired and below the hard stop. */
    ghost predicate AllSendable() reads this`sent {
      forall q :: q in sent ==> manager.Sendable(q.messages, q.tools)
    }

    ghost predicate Valid()
      reads this`sent, manager, manager.tracker, buffer, router, router.channel, router.knowledge
    {
      manager.Valid() && buffer.Valid() && router.Valid() && AllSendable()
    }

    /** The requests from this one on offered exactly these tools. */
    ghost predicate OfferedOnly(first: nat, offered: seq<Tool>)
      reads this`sent
    {
      forall i :: first <= i < |sent| ==> sent[i].tools == offered
    }

    predicate Signalled()
      reads router.channel
    {
      TerminalOf(router.channel.signals).Some?
    }

    /** The session's stop condition. */
    predicate Stopped()
      reads router.channel
    {
      config.project && Signalled()
    }

    /** The session is where its calls have led it. */
    ghost predicate InOrder()
      reads this`history, router, router.channel, router.knowledge
    {
      router.Value() == RunCalls(router.config, Start(existing), history)
    }

    // ---- One request ----

    method Remind(content: string)
      requires Valid() && buffer.active.None?
      modifies buffer`items
      ensures Valid() && buffer.items == old(buffer.items) + [Note(User, content, UserReminder)]
    {
      var ok := buffer.AddNote(User, content, UserReminder);
    }

    method Correct(content: string)
      requires Valid() && buffer.active.None?
      modifies buffer`items
      ensures Valid() && buffer.items == old(buffer.items) + [Note(User, content, ProtocolCorrection)]
    {
      var ok := buffer.AddNote(User, content, ProtocolCorrection);
    }

    /** The final answer of the model. */
    method Conclude(content: string)
      requires Valid() && buffer.active.None?
      modifies buffer`items
      ensures Valid() && buffer.items == old(buffer.items) + [Note(Assistant, content, Ordinary)]
    {
      var ok := buffer.AddNote(Assistant, content, Ordinary);
    }

    /** Hands a list to the model. */
    method Send(messages: seq<Message>, offered: seq<Tool>) returns (g: Generated)
      requires Valid() && manager.Sendable(messages, offered)
      modifies this`sent
      ensures Valid() && sent == old(sent) + [Request(messages, offered)] && g == world.generate(|old(sent)|)
    {
      g := world.generate(|sent|);
      sent := sent + [Request(messages, offered)];
    }

    const RETRY := Note(User, "retry with valid arguments", ProtocolCorrection)

    /** The items a repeated request is made of: they end with the correction, or with the instruction of a new segment. */
    ghost predicate Corrected(items: seq<Item>) {
      items != [] && (items[|items| - 1] == RETRY || manager.BeginsSegment(items))
    }

    /** The list shows, in the context mode, a context that was corrected before. */
    ghost predicate PreparedAnew(ms: seq<Message>) {
      exists anchor, items :: Corrected(items) && manager.Shows(buffer.system, anchor, items, ms)
    }

    /** Corrects the model and prepares the context anew. */
    method PrepareAgain(offered: seq<Tool>) returns (r: Option<Preparation>)
      requires Valid() && buffer.active.None?
      modifies manager, manager.tracker, buffer
      ensures Valid() && buffer.active.None?
      ensures r.None? ==> manager.config.mode == StructuredReset && !manager.config.fallback
      ensures r.Some? ==> if r.value.action.BudgetExhausted? then manager.budgetExhausted
                          else manager.Sendable(r.value.messages, offered) && PreparedAnew(r.value.messages)
    {
      hide Staleness.MadeStale, Messages.WellPaired, Budget.Fits, Messages.Finished, ContextLifecycleManager.Shows;
      Correct(RETRY.content);
      r := manager.Prepare(buffer, offered);
      assert Corrected(buffer.items);
    }

    /** One request, repeated after bad tool arguments; no response means a protocol failure or any other one. */
    method Generate(offered: seq<Tool>, initial: seq<Message>)
      returns (response: Option<Response>, protocolFailed: bool, crashed: bool)
      requires Valid() && buffer.active.None? && manager.Sendable(initial, offered)
      modifies this`sent, manager, manager.tracker, buffer
      ensures Valid() && buffer.active.None? && old(sent) <= sent
      ensures |old(sent)| < |sent| <= |old(sent)| + config.retries + 1 && OfferedOnly(old(|sent|), offered)
      ensures sent[|old(sent)|].messages == initial
      ensures forall i :: |old(sent)| <= i < |sent| - 1 ==> world.generate(i).BadArguments?
      ensures forall i :: |old(sent)| < i < |sent| ==> PreparedAnew(sent[i].messages)
      ensures response.Some? ==> |sent| > 0 && world.generate(|sent| - 1) == Responded(response.value)
      ensures response.None? <==> !world.generate(|sent| - 1).Responded?
      ensures protocolFailed || crashed ==> response.None?
      ensures crashed ==> manager.config.mode == StructuredReset && !manager.config.fallback
      ensures protocolFailed ==> world.generate(|sent| - 1).BadArguments?
      ensures protocolFailed ==> |sent| == |old(sent)| + config.retries + 1
      ensures response.None? && !protocolFailed && !crashed ==>
                manager.budgetExhausted || (|sent| > 0 && world.generate(|sent| - 1).ProviderFailed?)
    {
      hide Staleness.MadeStale, Messages.WellPaired, Budget.Fits, Messages.Finished, PreparedAnew;
      var retries, messages := 0, initial;
      while true
        invariant Valid() && buffer.active.None? && old(sent) <= sent
        invariant retries <= config.retries && |sent| == |old(sent)| + retries && manager.Sendable(messages, offered)
        invariant OfferedOnly(old(|sent|), offered)
        invariant if retries == 0 then messages == initial else sent[|old(sent)|].messages == initial && PreparedAnew(messages)
        invariant forall i :: |old(sent)| <= i < |sent| ==> world.generate(i).BadArguments?
        invariant forall i :: |old(sent)| < i < |sent| ==> PreparedAnew(sent[i].messages)
        decreases config.retries - retries
      {
        var g := Send(messages, offered);
        match g {
          case Responded(r) => return Some(r), false, false;
          case ProviderFailed => return None, false, false;
          case BadArguments =>
        }
        if retries >= config.retries { return None, true, false; }
        retries := retries + 1;
        var prepared := PrepareAgain(offered);
        if prepared.None? { return None, false, true; }
        if prepared.value.action.BudgetExhausted? { return None, false, false; }
        messages := prepared.value.messages;
      }
    }

    /** One tool call: routed, counted, and its result added to the open turn. */
    method RunCall(call: ToolCall, counting: bool) returns (ok: bool)
      requires Valid() && InOrder()
      modifies this`errors, this`tick, this`history, buffer`active, router, router.channel, router.knowledge
      ensures Valid() && InOrder() && history == old(history) + [call] && tick == old(tick) + 1
      ensures router.Value() == AfterCall(router.config, old(router.Value()), call)
      ensures ok <==> old(buffer.active).Some? && call.id in CallIds(old(buffer.active).value.calls)
                      && call.id !in ReplyIds(old(buffer.active).value.replies)
      ensures ok ==> buffer.active.Some? && buffer.active.value == old(buffer.active).value.(replies := buffer.active.value.replies)
      ensures ok ==> ReplyIds(buffer.active.value.replies) == ReplyIds(old(buffer.active).value.replies) + [call.id]
      ensures var work := world.work(old(tick)).result;
        errors == if counting then CountErrors(old(errors), CallAnswer(router.config, old(router.Value()), call, work)) else old(errors)
    {
      hide *;
      ValidMeans();
      InOrderMeans();
      RunOneMore(router.config, Start(existing), history, call);
      var work := world.work(tick);
      tick := tick + 1;
      ghost var replies := if buffer.active.Some? then buffer.active.value.replies else [];
      OneMoreReply(replies, Reply(call.id, call.name, work.content));
      var result := router.Execute(call, work.result);
      history := history + [call];
      if counting { errors := CountErrors(errors, result); }
      ok := buffer.AddToolResult(Reply(call.id, call.name, work.content));
      ValidMeans();
      InOrderMeans();
    }

    lemma InOrderMeans()
      ensures InOrder() <==> router.Value() == RunCalls(router.config, Start(existing), history)
    {
    }

    /** The tool calls of a response, run and recorded as one turn. */
    method RunTurn(r: Response, step: nat, counting: bool) returns (ok: bool)
      requires Valid() && buffer.active.None? && InOrder()
      modifies this`errors, this`tick, this`history, buffer, router, router.channel, router.knowledge
      ensures Valid() && (ok ==> buffer.active.None?) && InOrder()
      ensures ok ==> history == old(history) + Ordered(r.calls)
      ensures old(history) <= history <= old(history) + Ordered(r.calls)
      ensures ok <==> Recordable(r)
      ensures ok && counting ==>
                errors == ErrorsAfter(CallAnswers(router.config, old(router.Value()), Ordered(r.calls), world.work, old(tick)), old(errors))
      ensures ok ==> && |buffer.items| == |old(buffer.items)| + 1 && buffer.items[..|old(buffer.items)|] == old(buffer.items)
                     && IsTurnOf(buffer.items[|old(buffer.items)|], r, step)
      ensures !counting ==> errors == old(errors)
    {
      hide RunCalls, Messages.WellPaired, Budget.Fits, Messages.Finished, AskedCalls, Ordered, CallAnswer, CountErrors, AfterCall;
      hide Recordable, SameElements, AnswersTo, Distinct, ErrorsAfter, CallAnswers;
      RecordableMeans(r);
      var calls := Ordered(r.calls);
      ok := buffer.AddAssistantToolTurn(r.content, if r.rawCalls.Some? then r.rawCalls.value else AskedCalls(calls), step);
      if !ok { return; }
      ok := RunAll(calls, counting);
      if !ok { return; }
      ok := buffer.FinalizeTurn();
    }

    /** The calls, one after the other, while their turn is open. */
    method RunAll(calls: seq<ToolCall>, counting: bool) returns (ok: bool)
      requires Valid() && InOrder() && buffer.active.Some? && buffer.active.value.replies == []
      modifies this`errors, this`tick, this`history, buffer`active, router, router.channel, router.knowledge
      ensures Valid() && InOrder() && old(history) <= history <= old(history) + calls
      ensures ok ==> history == old(history) + calls
      ensures ok && counting ==>
                errors == ErrorsAfter(CallAnswers(router.config, old(router.Value()), calls, world.work, old(tick)), old(errors))
      ensures !counting ==> errors == old(errors)
      ensures ok ==> buffer.active.Some? && buffer.active.value == old(buffer.active).value.(replies := buffer.active.value.replies)
      ensures ok ==> ReplyIds(buffer.active.value.replies) == IdsOf(calls)
      ensures ok <==> AnswersTo(CallIds(old(buffer.active).value.calls), IdsOf(calls))
    {
      hide RunCalls, Messages.WellPaired, Budget.Fits, Messages.Finished, CallAnswer, CountErrors, AfterCall;
      hide CallAnswers, ErrorsAfter, CallIds, ReplyIds, AnswersTo, IdsOf;
      NoIds(CallIds(buffer.active.value.calls));
      ghost var begun := router.Value();
      ghost var answers := CallAnswers(router.config, begun, calls, world.work, tick);
      RunNothing(router.config, begun);
      NoneCounted(errors);
      for i := 0 to |calls|
        invariant Valid() && InOrder() && history == old(history) + calls[..i]
        invariant !counting ==> errors == old(errors)
        invariant tick == old(tick) + i && router.Value() == RunCalls(router.config, begun, calls[..i])
        invariant counting ==> errors == ErrorsAfter(answers[..i], old(errors))
        invariant buffer.active.Some? && buffer.active.value == old(buffer.active).value.(replies := buffer.active.value.replies)
        invariant AnswersTo(CallIds(old(buffer.active).value.calls), IdsOf(calls[..i]))
        invariant ReplyIds(buffer.active.value.replies) == IdsOf(calls[..i])
      {
        assert calls[..i + 1] == calls[..i] + [calls[i]];
        OneMoreCounted(router.config, begun, calls, world.work, old(tick), old(errors), i);
        RunOneMore(router.config, begun, calls[..i], calls[i]);
        ok := RunCall(calls[i], counting);
        assert history == old(history) + calls[..i + 1];
        OneMoreId(CallIds(old(buffer.active).value.calls), calls, i);
        if !ok { return; }
      }
      assert calls[..|calls|] == calls && answers[..|calls|] == answers;
      ok := true;
    }

    /** The statuses and the signal agree: a project session completes exactly when it is signalled. */
    ghost predicate Agrees(next: Next)
      reads router.channel
    {
      config.project && !next.Crashed? ==> (next == Stop(Completed) <==> Signalled())
    }

    /**
     What a response leads to: a final answer ends the session unless it is a project session, and so does the stop
     condition after its calls; otherwise the session goes on until there are too many errors.
     */
    ghost predicate Follows(r: Response, next: Next)
      reads this`errors, router.channel
    {
      && (r.final.Some? && r.calls == [] && config.project ==> next == Continue)
      && (r.final.Some? && r.calls == [] && !config.project ==> next == Stop(Completed))
      && (r.calls != [] && config.project && Signalled() ==> next == Stop(Completed))
      && ((r.final.None? && r.calls == []) || (r.calls != [] && !(config.project && Signalled())) ==>
            next == if errors >= config.maxErrors then Stop(Aborted) else Continue)
    }

    /** The error count after a response: its calls are counted, a response with neither calls nor answer is an error. */
    ghost function CountedErrors(r: Response): nat
      reads this`errors, this`tick, router, router.channel, router.knowledge
    {
      if r.calls == [] then (if r.final.Some? then errors else errors + 1)
      else ErrorsAfter(CallAnswers(router.config, router.Value(), Ordered(r.calls), world.work, tick), errors)
    }

    /** The turn with the calls of the response, or else its final answer, is in the context. */
    ghost predicate Recorded(r: Response, step: nat)
      reads buffer
    {
      && (r.calls != [] ==> exists i :: 0 <= i < |buffer.items| && IsTurnOf(buffer.items[i], r, step))
      && (r.calls == [] && r.final.Some? ==>
            exists i :: 0 <= i < |buffer.items| && buffer.items[i] == Note(Assistant, r.final.value, Ordinary))
    }

    lemma Counting(r: Response)
      ensures CountedErrors(r) ==
              if r.calls == [] then (if r.final.Some? then errors else errors + 1)
              else ErrorsAfter(CallAnswers(router.config, router.Value(), Ordered(r.calls), world.work, tick), errors)
    {
    }

    lemma FinalNoted(r: Response, step: nat, i: int)
      requires r.calls == []
      requires r.final.Some? ==> 0 <= i < |buffer.items| && buffer.items[i] == Note(Assistant, r.final.value, Ordinary)
      ensures Recorded(r, step)
    {
    }

    lemma TurnRecorded(r: Response, step: nat, i: nat)
      requires r.calls != [] && i < |buffer.items| && IsTurnOf(buffer.items[i], r, step)
      ensures Recorded(r, step)
    {
    }

    /** The predicates on a handled response, for the current state. */
    lemma HandledMeans(r: Response, before: seq<ToolCall>)
      ensures forall next :: Heeded(Some(r), next, before) <==>
                before <= history <= before + Ordered(r.calls) && (!next.Crashed? ==> history == before + Ordered(r.calls))
      ensures r.calls == [] ==> Ordered(r.calls) == []
      ensures Stopped() <==> config.project && Signalled()
      ensures forall next :: Agrees(next) <==> (config.project && !next.Crashed? ==> (next == Stop(Completed) <==> Signalled()))
      ensures Agrees(Continue) <==> (config.project ==> !Signalled())
      ensures Follows(r, if r.final.Some? && r.calls == [] then (if config.project then Continue else Stop(Completed))
                         else if r.calls != [] && config.project && Signalled() then Stop(Completed)
                         else if errors >= config.maxErrors then Stop(Aborted) else Continue)
    {
      hide Ordered;
      if r.calls == [] { NothingOrdered(); }
    }

    method Handle(r: Response, step: nat) returns (next: Next)
      requires Valid() && buffer.active.None? && InOrder() && Agrees(Continue)
      modifies this`errors, this`tick, this`history, this`seenFinal, buffer, router, router.channel, router.knowledge
      ensures Valid() && InOrder() && Agrees(next) && (!next.Crashed? ==> buffer.active.None?)
      ensures !next.Crashed? ==> Follows(r, next) && errors == old(CountedErrors(r))
      ensures next.Crashed? <==> r.calls != [] && !Recordable(r)
      ensures next.Stop? ==> next.status == Completed || next.status == Aborted
      ensures seenFinal <==> old(seenFinal) || (config.project && r.final.Some? && r.calls == [])
      ensures Heeded(Some(r), next, old(history))
      ensures !next.Crashed? ==> Recorded(r, step)
    {
      hide *;
      ghost var before := history;
      Counting(r);
      if r.final.Some? && r.calls == [] {
        Conclude(r.final.value);
        FinalNoted(r, step, |buffer.items| - 1);
        HandledMeans(r, before);
        if !config.project || Signalled() { return Stop(Completed); }
        seenFinal := true;
        Correct("a final answer does not end a project session");
        FinalNoted(r, step, |buffer.items| - 2);
        HandledMeans(r, before);
        return Continue;
      }
      if r.calls == [] {
        errors := errors + 1;
        FinalNoted(r, step, 0);
        HandledMeans(r, before);
        if errors >= config.maxErrors { return Stop(Aborted); }
        Correct("return tool calls or a final answer");
        FinalNoted(r, step, 0);
        return Continue;
      }
      ghost var place := |buffer.items|;
      var ok := RunTurn(r, step, true);
      HandledMeans(r, before);
      if !ok { return Crashed; }
      if world.actionRequired(tick) { Remind("action required"); }
      TurnRecorded(r, step, place);
      HandledMeans(r, before);
      if Stopped() { return Stop(Completed); }
      if errors >= config.maxErrors { return Stop(Aborted); }
      return Continue;
    }

    // ---- One step ----

    /** Reminders that are due; `last` says that only terminal tools are offered. */
    method StepReminders(step: nat) returns (last: bool)
      requires Valid() && buffer.active.None? && 1 <= step <= config.maxSteps
      modifies buffer`items
      ensures Valid() && buffer.active.None? && (last <==> config.project && step == config.maxSteps)
    {
      if config.workflow && world.reminderDue(step) { Remind("register a test"); }
      var remaining := config.maxSteps - step + 1;
      if config.project && remaining == 3 { Remind("three turns remain"); }
      last := config.project && remaining == 1;
      if last {
        if config.workflow { Remind("final checklist"); }
        if router.DecisionPending() {
          Remind("decide about knowledge, then signal");
        } else if world.evidence(tick) {
          Remind("confirm completion");
        } else {
          Remind("report progress");
        }
      }
    }

    /** Why there is no response to the requests from this one on. */
    ghost predicate Unanswered(first: nat, next: Next)
      reads this`sent, manager
    {
      && (next == Crashed ==> manager.config.mode == StructuredReset && !manager.config.fallback)
      && (next == Stop(ContextExhausted) ==> manager.budgetExhausted)
      && (next == Stop(ProtocolFailure) ==>
            |sent| == first + config.retries + 1 && forall i :: first <= i < |sent| ==> world.generate(i).BadArguments?)
      && (next == Stop(ProviderError) ==>
            manager.budgetExhausted || (|sent| > first && world.generate(|sent| - 1).ProviderFailed?))
    }

    /** Prepares the context and asks; `None` with `next` if there is nothing to handle. */
    method Ask(offered: seq<Tool>) returns (response: Option<Response>, next: Next)
      requires Valid() && buffer.active.None?
      modifies this`sent, manager, manager.tracker, buffer
      ensures Valid() && buffer.active.None? && old(sent) <= sent
      ensures |sent| <= |old(sent)| + config.retries + 1 && OfferedOnly(old(|sent|), offered)
      ensures OneAnswer(world, old(|sent|), |sent|) && response == LastAnswer(world, old(|sent|), |sent|)
      ensures response.None? ==> Unanswered(old(|sent|), next)
      ensures response.None? ==>
                next == Crashed || next == Stop(ContextExhausted) || next == Stop(ProtocolFailure) || next == Stop(ProviderError)
      ensures next == Stop(ContextExhausted) && response.None? ==> sent == old(sent) && manager.budgetExhausted
    {
      hide *;
      ValidMeans();
      NothingHappened();
      ghost var first := |sent|;
      var prepared := manager.Prepare(buffer, offered);
      ValidMeans();
      if prepared.None? {
        UnansweredMeans(first);
        if buffer.active.Some? { assert false; }
        return None, Crashed;
      }
      if prepared.value.action.BudgetExhausted? {
        UnansweredMeans(first);
        return None, Stop(ContextExhausted);
      }
      var protocolFailed, crashed;
      response, protocolFailed, crashed := Generate(offered, prepared.value.messages);
      UnansweredMeans(first);
      AnswersMean(world, first, |sent|);
      if crashed { return None, Crashed; }
      if response.None? { return None, Stop(if protocolFailed then ProtocolFailure else ProviderError); }
      return response, Continue;
    }

    lemma ValidMeans()
      ensures Valid() <==> manager.Valid() && buffer.Valid() && router.Valid() && AllSendable()
    {
    }

    lemma UnansweredMeans(first: nat)
      ensures forall next :: Unanswered(first, next) <==>
                && (next == Crashed ==> manager.config.mode == StructuredReset && !manager.config.fallback)
                && (next == Stop(ContextExhausted) ==> manager.budgetExhausted)
                && (next == Stop(ProtocolFailure) ==>
                      |sent| == first + config.retries + 1 && forall i :: first <= i < |sent| ==> world.generate(i).BadArguments?)
                && (next == Stop(ProviderError) ==>
                      manager.budgetExhausted || (|sent| > first && world.generate(|sent| - 1).ProviderFailed?))
    {
    }

    lemma NothingHappened()
      ensures forall next :: Heeded(None, next, history)
      ensures forall offered :: OfferedOnly(|sent|, offered)
      ensures OneAnswer(world, |sent|, |sent|) && LastAnswer(world, |sent|, |sent|).None?
      ensures Unanswered(|sent|, Stop(TimeLimit))
    {
    }

    /** Without a signal any end but a completed one is in order. */
    lemma EndsUnsignalled()
      requires Agrees(Continue)
      ensures Agrees(Crashed) && forall status :: status != Completed ==> Agrees(Stop(status))
    {
    }

    /** The calls of the response have run, in their order; all of them unless there was an error nobody handles. */
    ghost predicate Heeded(r: Option<Response>, next: Next, before: seq<ToolCall>)
      reads this`history
    {
      var calls := if r.Some? then Ordered(r.value.calls) else [];
      before <= history <= before + calls && (!next.Crashed? ==> history == before + calls)
    }

    method Step(step: nat) returns (next: Next)
      requires Valid() && buffer.active.None? && InOrder() && Agrees(Continue) && 1 <= step <= config.maxSteps
      modifies this, manager, manager.tracker, buffer, router, router.channel, router.knowledge
      ensures Valid() && InOrder() && Agrees(next) && (!next.Crashed? ==> buffer.active.None?)
      ensures old(sent) <= sent && |sent| <= |old(sent)| + config.retries + 1
      ensures OfferedOnly(old(|sent|), if config.project && step == config.maxSteps then TerminalOnly(tools) else tools)
      ensures world.late(step) <==> next == Stop(TimeLimit)
      ensures world.late(step) ==> sent == old(sent)
      ensures OneAnswer(world, old(|sent|), |sent|)
      ensures Heeded(LastAnswer(world, old(|sent|), |sent|), next, old(history))
      ensures LastAnswer(world, old(|sent|), |sent|).None? ==> !next.Continue? && next != Stop(Completed) && next != Stop(Aborted)
      ensures LastAnswer(world, old(|sent|), |sent|).None? ==> Unanswered(old(|sent|), next) && seenFinal == old(seenFinal)
      ensures var r := LastAnswer(world, old(|sent|), |sent|);
        r.Some? && !next.Crashed? ==> Follows(r.value, next) && errors == old(CountedErrors(r.value)) && Recorded(r.value, step)
      ensures var r := LastAnswer(world, old(|sent|), |sent|);
        r.Some? ==> (next.Crashed? <==> r.value.calls != [] && !Recordable(r.value))
      ensures var r := LastAnswer(world, old(|sent|), |sent|);
        r.Some? ==> (seenFinal <==> old(seenFinal) || (config.project && r.value.final.Some? && r.value.calls == []))
      ensures next.Stop? ==> next.status != MaxStepsReached && next.status != FinalWithoutSignal && next.status != SignalMissing
    {
      hide *;
      NothingHappened();
      EndsUnsignalled();
      if world.late(step) { return Stop(TimeLimit); }
      var last := StepReminders(step);
      var response;
      response, next := Ask(if last then TerminalOnly(tools) else tools);
      EndsUnsignalled();
      if response.Some? {
        next := Handle(response.value, step);
      } else if next == Stop(ProtocolFailure) || next == Stop(ProviderError) {
        errors := errors + 1;
      }
    }

    /** A turn after the last step, to recover a missing signal. */
    method GraceTurn(step: nat) returns (next: Next)
      requires Valid() && buffer.active.None? && InOrder() && Agrees(Continue)
      modifies this, manager, manager.tracker, buffer, router, router.channel, router.knowledge
      ensures Valid() && InOrder() && Agrees(next) && (!next.Crashed? ==> buffer.active.None?)
      ensures old(sent) <= sent && |sent| <= |old(sent)| + config.retries + 1
      ensures OfferedOnly(old(|sent|), TerminalOnly(tools)) && errors == old(errors)
      ensures next.Stop? ==> next.status != MaxStepsReached && next.status != FinalWithoutSignal
      ensures OneAnswer(world, old(|sent|), |sent|)
      ensures Heeded(LastAnswer(world, old(|sent|), |sent|), next, old(history))
      ensures LastAnswer(world, old(|sent|), |sent|).None? ==> Unanswered(old(|sent|), next) && !next.Continue? && next != Stop(Completed)
      ensures var r := LastAnswer(world, old(|sent|), |sent|);
        r.Some? ==> (next.Crashed? <==> r.value.calls != [] && !Recordable(r.value))
      ensures var r := LastAnswer(world, old(|sent|), |sent|);
        r.Some? && !next.Crashed? && r.value.calls != [] ==> Recorded(r.value, step)
      ensures LastAnswer(world, old(|sent|), |sent|).Some? && !next.Crashed? ==>
                next == if config.project && Signalled() then Stop(Completed) else Continue
      ensures next.Stop? ==> next.status in {Completed, ContextExhausted, ProtocolFailure, ProviderError}
    {
      hide *;
      ghost var before := history;
      Remind("confirm completion");
      var response;
      response, next := Ask(TerminalOnly(tools));
      NothingHappened();
      EndsUnsignalled();
      if response.None? { return; }
      ghost var place := |buffer.items|;
      HandledMeans(response.value, before);
      if response.value.calls != [] {
        var ok := RunTurn(response.value, step, false);
        HandledMeans(response.value, before);
        if !ok { return Crashed; }
        TurnRecorded(response.value, step, place);
      }
      return if Stopped() then Stop(Completed) else Continue;
    }

    // ---- The session ----

    /** No signal had been accepted when the responses to the first `n` requests were handled. */
    ghost predicate Unsignalled(n: nat) {
      TerminalOf(RunCalls(router.config, Start(existing), Asked(world, n)).channel.signals).None?
    }

    /** A project session makes no request after a signal. */
    ghost predicate SilentSoFar()
      reads this`sent
    {
      config.project ==> forall n {:trigger Unsignalled(n)} :: 0 <= n < |sent| ==> Unsignalled(n)
    }

    /** The calls that ran are those of the responses; an error nobody handles may have cut off the last of them. */
    ghost predicate Caught(next: Next)
      reads this`sent, this`history
    {
      history <= Asked(world, |sent|) && (!next.Crashed? ==> history == Asked(world, |sent|))
    }

    /** Why a session may end like this. */
    ghost predicate EndsFor(status: RunStatus)
      reads this`sent, this`errors, manager, router.channel
    {
      match status
      case Completed => if config.project then Signalled() else |sent| > 0 && FinalAnswer(world.generate(|sent| - 1))
      case TimeLimit => exists step :: 1 <= step <= config.maxSteps && world.late(step)
      case Aborted => errors >= config.maxErrors
      case ProviderError => manager.budgetExhausted || (|sent| > 0 && world.generate(|sent| - 1).ProviderFailed?)
      case ProtocolFailure =>
        |sent| > config.retries && forall i :: |sent| - config.retries - 1 <= i < |sent| ==> world.generate(i).BadArguments?
      case ContextExhausted => manager.budgetExhausted
      case MaxStepsReached => Responses(world, |sent|) == config.maxSteps && !(config.project && AnsweredFinally(world, |sent|))
      case FinalWithoutSignal => Responses(world, |sent|) == config.maxSteps && config.project && AnsweredFinally(world, |sent|)
      case SignalMissing => config.project && Responses(world, |sent|) == config.maxSteps + config.graceTurns
    }

    /** A reset without a handoff, or calls that cannot be recorded as a turn. */
    ghost predicate CrashesFor()
      reads this`sent
    {
      || (manager.config.mode == StructuredReset && !manager.config.fallback)
      || (|sent| > 0 && world.generate(|sent| - 1).Responded? && world.generate(|sent| - 1).response.calls != []
          && !Recordable(world.generate(|sent| - 1).response))
    }

    lemma NothingAskedYet()
      requires sent == [] && history == []
      ensures Caught(Continue) && SilentSoFar() && Responses(world, |sent|) == 0 && !AnsweredFinally(world, |sent|)
    {
    }

    lemma UnsignalledNow()
      requires InOrder() && Caught(Continue) && Agrees(Continue)
      ensures config.project ==> Unsignalled(|sent|)
    {
    }

    /** What one more turn adds to the calls and the responses. */
    lemma TurnTaken(first: nat, before: seq<ToolCall>, next: Next)
      requires OneAnswer(world, first, |sent|) && Heeded(LastAnswer(world, first, |sent|), next, before)
      requires before == Asked(world, first)
      requires config.project ==> Unsignalled(first) && forall n {:trigger Unsignalled(n)} :: 0 <= n < first ==> Unsignalled(n)
      ensures Caught(next) && SilentSoFar()
      ensures Responses(world, |sent|) == Responses(world, first) + if LastAnswer(world, first, |sent|).Some? then 1 else 0
      ensures AnsweredFinally(world, |sent|) <==>
              AnsweredFinally(world, first) || (|sent| > first && FinalAnswer(world.generate(|sent| - 1)))
    {
      OneMoreAnswer(world, first, |sent|);
      hide Ordered;
    }

    lemma StepEnds(step: nat, first: nat, next: Next)
      requires 1 <= step <= config.maxSteps && first <= |sent| && Agrees(next)
      requires world.late(step) <==> next == Stop(TimeLimit)
      requires next.Stop? ==> next.status != MaxStepsReached && next.status != FinalWithoutSignal && next.status != SignalMissing
      requires match LastAnswer(world, first, |sent|)
               case None => Unanswered(first, next) && !next.Continue? && next != Stop(Completed) && next != Stop(Aborted)
               case Some(r) => (next.Crashed? <==> r.calls != [] && !Recordable(r)) && (!next.Crashed? ==> Follows(r, next))
      ensures next.Stop? ==> EndsFor(next.status)
      ensures next.Crashed? ==> CrashesFor()
    {
      hide Recordable;
    }

    /** The steps of the session, until one of them stops it. */
    method RunSteps() returns (status: RunStatus, crashed: bool)
      requires Valid() && buffer.active.None? && InOrder() && Agrees(Continue) && sent == [] && !seenFinal && history == []
      modifies this, manager, manager.tracker, buffer, router, router.channel, router.knowledge
      ensures Valid() && InOrder() && (!crashed ==> buffer.active.None?)
      ensures !crashed ==> Agrees(Stop(status)) && status != SignalMissing && EndsFor(status)
      ensures crashed ==> CrashesFor()
      ensures Caught(if crashed then Crashed else Continue) && SilentSoFar()
      ensures |sent| <= config.maxSteps * (config.retries + 1)
    {
      hide *;
      NothingAskedYet();
      var next, step := Continue, 0;
      while next.Continue? && step < config.maxSteps
        invariant Valid() && InOrder() && Agrees(next) && step <= config.maxSteps && (!next.Crashed? ==> buffer.active.None?)
        invariant |sent| <= step * (config.retries + 1)
        invariant Caught(next) && SilentSoFar()
        invariant next.Continue? ==> Responses(world, |sent|) == step
        invariant seenFinal <==> config.project && AnsweredFinally(world, |sent|)
        invariant next.Stop? ==> EndsFor(next.status) && next.status != SignalMissing
        invariant next.Crashed? ==> CrashesFor()
        decreases next.Continue?, config.maxSteps - step
      {
        OneMoreStep(step, config.retries + 1);
        step := step + 1;
        ghost var first, before := |sent|, history;
        UnsignalledNow();
        CaughtMeans();
        next := Step(step);
        TurnTaken(first, before, next);
        StepEnds(step, first, next);
        LastAnswerMeans(world, first, |sent|);
      }
      FewerSteps(step, config.maxSteps, config.retries + 1);
      CaughtMeans();
      if next.Crashed? { return Aborted, true; }
      if next.Stop? { return next.status, false; }
      StepsUsedUp();
      return if seenFinal then FinalWithoutSignal else MaxStepsReached, false;
    }

    lemma CaughtMeans()
      ensures Caught(Continue) <==> history == Asked(world, |sent|)
      ensures forall status :: Caught(Stop(status)) <==> Caught(Continue)
      ensures SilentSoFar() <==> (config.project ==> forall n {:trigger Unsignalled(n)} :: 0 <= n < |sent| ==> Unsignalled(n))
    {
    }

    lemma StepsUsedUp()
      requires Agrees(Continue) && Responses(world, |sent|) == config.maxSteps
      ensures var status := if config.project && AnsweredFinally(world, |sent|) then FinalWithoutSignal else MaxStepsReached;
        EndsFor(status) && Agrees(Stop(status))
    {
    }

    lemma OneMoreStep(step: nat, each: nat)
      ensures (step + 1) * each == step * each + each
    {
    }

    lemma FewerSteps(step: nat, steps: nat, each: nat)
      requires step <= steps
      ensures step * each <= steps * each
    {
    }

    lemma GraceEnds(first: nat, next: Next)
      requires first <= |sent| && Agrees(next) && config.project
      requires next.Stop? ==> next.status in {Completed, ContextExhausted, ProtocolFailure, ProviderError}
      requires match LastAnswer(world, first, |sent|)
               case None => Unanswered(first, next) && !next.Continue? && next != Stop(Completed)
               case Some(r) => (next.Crashed? <==> r.calls != [] && !Recordable(r))
                               && (!next.Crashed? ==> next == if Signalled() then Stop(Completed) else Continue)
      ensures next.Stop? ==> EndsFor(next.status)
      ensures next.Crashed? ==> CrashesFor()
    {
      hide Recordable;
    }

    lemma GraceUsedUp()
      requires config.project && Agrees(Continue) && Responses(world, |sent|) == config.maxSteps + config.graceTurns
      ensures EndsFor(SignalMissing) && Agrees(Stop(SignalMissing))
    {
    }

    /** Extra turns for a session that has its evidence but sent no signal. */
    method RunGrace() returns (status: RunStatus, crashed: bool)
      requires Valid() && buffer.active.None? && InOrder() && config.project && Agrees(Continue)
      requires Caught(Continue) && SilentSoFar() && Responses(world, |sent|) == config.maxSteps && config.graceTurns > 0
      modifies this, manager, manager.tracker, buffer, router, router.channel, router.knowledge
      ensures Valid() && InOrder() && (!crashed ==> Agrees(Stop(status)) && EndsFor(status))
      ensures crashed ==> CrashesFor()
      ensures Caught(if crashed then Crashed else Continue) && SilentSoFar()
      ensures |sent| <= |old(sent)| + config.graceTurns * (config.retries + 1)
      ensures !crashed ==> status != MaxStepsReached && status != FinalWithoutSignal
    {
      hide *;
      var next, turn := Continue, 0;
      while next.Continue? && turn < config.graceTurns
        invariant Valid() && InOrder() && Agrees(next) && turn <= config.graceTurns && (!next.Crashed? ==> buffer.active.None?)
        invariant |sent| <= |old(sent)| + turn * (config.retries + 1)
        invariant Caught(next) && SilentSoFar()
        invariant next.Continue? ==> Responses(world, |sent|) == config.maxSteps + turn
        invariant next.Stop? ==> EndsFor(next.status) && next.status != MaxStepsReached && next.status != FinalWithoutSignal
        invariant next.Crashed? ==> CrashesFor()
        decreases next.Continue?, config.graceTurns - turn
      {
        OneMoreStep(turn, config.retries + 1);
        turn := turn + 1;
        ghost var first, before := |sent|, history;
        UnsignalledNow();
        CaughtMeans();
        next := GraceTurn(config.maxSteps + turn);
        TurnTaken(first, before, next);
        GraceEnds(first, next);
        CaughtMeans();
      }
      FewerSteps(turn, config.graceTurns, config.retries + 1);
      crashed := next.Crashed?;
      CaughtMeans();
      if next.Stop? { return next.status, false; }
      if next.Continue? { GraceUsedUp(); }
      status := SignalMissing;
    }

    /**
     A whole session. Every list it hands to the model is well paired and below the hard stop, in every context mode and
     across retries, resets and grace turns; the number of requests is bounded; the calls that run are those of the
     responses, in their order; nothing is asked after a signal; and a project session completes exactly when the channel
     holds a terminal signal, which was sent under the gates.
     */
    method Run() returns (status: RunStatus, crashed: bool)
      requires Valid() && buffer.active.None? && sent == [] && !seenFinal && InOrder() && history == []
      modifies this, manager, manager.tracker, buffer, router, router.channel, router.knowledge
      ensures forall q :: q in sent ==> WellPaired(q.messages) && Fits(manager.config, manager.counter, q.messages, q.tools)
      ensures |sent| <= (config.maxSteps + config.graceTurns) * (config.retries + 1)
      ensures !crashed && config.project ==> (status == Completed <==> Signalled())
      ensures Orderly(router.config, router.Value())
      ensures TerminalOf(router.channel.signals) == Some(CompletionRequest) ==>
                exists n: nat :: RequestedAt(router.config, existing, history, n)
      ensures history <= Asked(world, |sent|) && (!crashed ==> history == Asked(world, |sent|))
      ensures router.Value() == RunCalls(router.config, Start(existing), history)
      ensures config.project ==> forall n {:trigger Unsignalled(n)} :: 0 <= n < |sent| ==> Unsignalled(n)
      ensures !crashed ==> EndsFor(status)
      ensures crashed ==> CrashesFor()
      ensures !crashed && config.project && sent != [] && SignalsAtOnce() ==> status == Completed && |sent| == 1
    {
      hide Orderly, Messages.WellPaired, Budget.Fits, Messages.Finished, EndsFor, Unsignalled, RunCalls, CrashesFor, Asked, SignalsAtOnce, Signalled;
      Distribute(config.maxSteps, config.graceTurns, config.retries + 1);
      status, crashed := RunSession();
      SessionIsOrderly(router.config, existing, history);
      CompletionWasGated(router.config, existing, history);
      if SignalsAtOnce() { FirstSignalEnds(); }
    }

    /** The calls of the first response send a terminal signal that is accepted. */
    ghost predicate SignalsAtOnce() {
      world.generate(0).Responded?
      && TerminalOf(RunCalls(router.config, Start(existing), Ordered(world.generate(0).response.calls)).channel.signals).Some?
    }

    lemma FirstSignalEnds()
      requires SignalsAtOnce() && InOrder() && SilentSoFar()
      ensures config.project ==> |sent| <= 1
      ensures |sent| == 1 && Caught(Continue) ==> Signalled()
    {
      hide Ordered, RunCalls;
      assert Asked(world, 0) == [];
      assert Asked(world, 1) == Ordered(world.generate(0).response.calls);
      assert !Unsignalled(1);
    }

    method RunSession() returns (status: RunStatus, crashed: bool)
      requires Valid() && buffer.active.None? && sent == [] && !seenFinal && InOrder() && history == []
      modifies this, manager, manager.tracker, buffer, router, router.channel, router.knowledge
      ensures Valid() && InOrder() && (!crashed ==> Agrees(Stop(status)) && EndsFor(status))
      ensures crashed ==> CrashesFor()
      ensures Caught(if crashed then Crashed else Continue) && SilentSoFar()
      ensures |sent| <= config.maxSteps * (config.retries + 1) + config.graceTurns * (config.retries + 1)
    {
      NoSignalYet();
      hide *;
      Distribute(config.maxSteps, config.graceTurns, config.retries + 1);
      status, crashed := RunSteps();
      if crashed { return; }
      StepsMeans(status);
      if config.project && config.graceTurns > 0 && !Stopped()
         && (status == MaxStepsReached || status == FinalWithoutSignal) && world.evidence(tick) {
        status, crashed := RunGrace();
      } else if config.project && (status == MaxStepsReached || status == FinalWithoutSignal) && world.evidence(tick) && !Stopped() {
        status := SignalMissing;
      }
    }

    /** A new session has no signal. */
    lemma NoSignalYet()
      requires InOrder() && history == []
      ensures Agrees(Continue)
    {
    }

    /** A session that has used up its steps goes on to grace turns, or misses its signal if there are none. */
    lemma StepsMeans(status: RunStatus)
      requires EndsFor(status) && Agrees(Stop(status))
      ensures (status == MaxStepsReached || status == FinalWithoutSignal) ==> Responses(world, |sent|) == config.maxSteps
      ensures (status == MaxStepsReached || status == FinalWithoutSignal) ==> Agrees(Continue)
      ensures (status == MaxStepsReached || status == FinalWithoutSignal) && config.project && config.graceTurns == 0 ==>
                EndsFor(SignalMissing) && Agrees(Stop(SignalMissing))
      ensures config.project && status != Completed ==> !Stopped()
    {
    }

    lemma Distribute(a: nat, b: nat, each: nat)
      ensures (a + b) * each == a * each + b * each && b * each >= 0
    {
    }
  }
}
