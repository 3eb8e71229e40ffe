/** Estimated sizes of requests, and the two ratios of the context limit that decide about them. */
module Budget {
  import opened Messages
  import opened Buffer

  datatype Mode = FullHistory | RecentWindow | DeterministicPrune | StructuredReset

  datatype ContextConfig = ContextConfig(
    mode: Mode, limit: nat, reserve: nat, margin: nat, trigger: real, hardStop: real, recentFullTurns: nat,
    deduplicate: bool, compactOld: bool, maxChars: nat, useModel: bool, fallback: bool, maxCompactorTries: nat)

  /** What the configuration schema guarantees. */
  predicate ValidContext(c: ContextConfig) {
    c.reserve + c.margin < c.limit && 0.0 < c.trigger < c.hardStop < 1.0 && 1 <= c.recentFullTurns
  }

  /** A tool schema, by its name. */
  type Tool = string

  /** The tokens of one message or tool, overhead included. */
  datatype Counter = Counter(message: Message -> nat, tool: Tool -> nat)

  datatype Measure = Measure(messageTokens: nat, toolTokens: nat, total: nat, triggerExceeded: bool, hardStopExceeded: bool)

  function MessageTokens(n: Counter, ms: seq<Message>): nat {
    if ms == [] then 0 else MessageTokens(n, ms[..|ms| - 1]) + n.message(ms[|ms| - 1])
  }

  function ToolTokens(n: Counter, tools: seq<Tool>): nat {
    if tools == [] then 0 else ToolTokens(n, tools[..|tools| - 1]) + n.tool(tools[|tools| - 1])
  }

  function Total(c: ContextConfig, n: Counter, ms: seq<Message>, tools: seq<Tool>): nat {
    MessageTokens(n, ms) + ToolTokens(n, tools) + c.reserve + c.margin
  }

  predicate Reaches(c: ContextConfig, total: nat, ratio: real)
    requires ValidContext(c)
  {
    total as real / c.limit as real >= ratio
  }

  function Measured(c: ContextConfig, n: Counter, ms: seq<Message>, tools: seq<Tool>): Measure
    requires ValidContext(c)
  {
    var total := Total(c, n, ms, tools);
    Measure(MessageTokens(n, ms), ToolTokens(n, tools), total, Reaches(c, total, c.trigger), Reaches(c, total, c.hardStop))
  }

  method MeasureRequest(c: ContextConfig, n: Counter, ms: seq<Message>, tools: seq<Tool>) returns (r: Measure)
    requires ValidContext(c)
    ensures r == Measured(c, n, ms, tools)
    ensures r.total == r.messageTokens + r.toolTokens + c.reserve + c.margin
    ensures r.triggerExceeded <==> r.total as real >= c.trigger * c.limit as real
    ensures r.hardStopExceeded <==> r.total as real >= c.hardStop * c.limit as real
  {
    var messageTokens, toolTokens := 0, 0;
    for i := 0 to |ms|
      invariant messageTokens == MessageTokens(n, ms[..i])
    {
      assert ms[..i + 1][..i] == ms[..i];
      messageTokens := messageTokens + n.message(ms[i]);
    }
    for i := 0 to |tools|
      invariant toolTokens == ToolTokens(n, tools[..i])
    {
      assert tools[..i + 1][..i] == tools[..i];
      toolTokens := toolTokens + n.tool(tools[i]);
    }
    assert ms[..|ms|] == ms && tools[..|tools|] == tools;
    var total := messageTokens + toolTokens + c.reserve + c.margin;
    r := Measure(messageTokens, toolTokens, total, Reaches(c, total, c.trigger), Reaches(c, total, c.hardStop));
    assert total == Total(c, n, ms, tools);
    hide *;
    MeasuredMeans(c, n, ms, tools);
  }

  /** A request that may be sent: its estimated total is below the hard stop. */
  ghost predicate Fits(c: ContextConfig, n: Counter, ms: seq<Message>, tools: seq<Tool>) {
    Total(c, n, ms, tools) as real < c.hardStop * c.limit as real
  }

  lemma ReachesMeans(c: ContextConfig, total: nat, ratio: real)
    requires ValidContext(c)
    ensures Reaches(c, total, ratio) <==> total as real >= ratio * c.limit as real
  {
    var limit := c.limit as real;
    var q := total as real / limit;
    assert q * limit == total as real;
    if q < ratio { ScaleUp(q, ratio, limit); } else { ScaleUpEqual(ratio, q, limit); }
  }

  /** The trigger is reached by the trigger ratio and the hard stop by its own, in tokens; the hard stop comes later. */
  lemma MeasuredMeans(c: ContextConfig, n: Counter, ms: seq<Message>, tools: seq<Tool>)
    requires ValidContext(c)
    ensures var m := Measured(c, n, ms, tools);
      && m.total == MessageTokens(n, ms) + ToolTokens(n, tools) + c.reserve + c.margin
      && (m.triggerExceeded <==> m.total as real >= c.trigger * c.limit as real)
      && (m.hardStopExceeded <==> m.total as real >= c.hardStop * c.limit as real)
      && (m.hardStopExceeded ==> m.triggerExceeded)
  {
    hide Reaches, MessageTokens, ToolTokens;
    ScaleUp(c.trigger, c.hardStop, c.limit as real);
    ReachesMeans(c, Total(c, n, ms, tools), c.trigger);
    ReachesMeans(c, Total(c, n, ms, tools), c.hardStop);
  }

  /** Below either ratio means below the hard stop, in tokens. */
  lemma BelowMeansFits(c: ContextConfig, n: Counter, ms: seq<Message>, tools: seq<Tool>)
    requires ValidContext(c)
    ensures Fits(c, n, ms, tools) <==> !Measured(c, n, ms, tools).hardStopExceeded
    ensures !Measured(c, n, ms, tools).triggerExceeded ==> Fits(c, n, ms, tools)
  {
    hide MessageTokens, ToolTokens, Measured;
    MeasuredMeans(c, n, ms, tools);
  }

  lemma ScaleUp(a: real, b: real, k: real)
    requires a < b && 0.0 < k
    ensures a * k < b * k
  {
  }

  lemma ScaleUpEqual(a: real, b: real, k: real)
    requires a <= b && 0.0 < k
    ensures a * k <= b * k
  {
    if a < b { ScaleUp(a, b, k); }
  }

  lemma {:induction false} TokensAdd(n: Counter, a: seq<Message>, b: seq<Message>)
    ensures MessageTokens(n, a + b) == MessageTokens(n, a) + MessageTokens(n, b)
  {
    if b == [] {
      assert a + b == a;
    } else {
      assert (a + b)[..|a + b| - 1] == a + b[..|b| - 1];
      TokensAdd(n, a, b[..|b| - 1]);
    }
  }

  /** A window never measures more than the whole. */
  lemma {:induction false} WindowIsLighter(n: Counter, items: seq<Item>, k: int)
    ensures MessageTokens(n, Flatten(Window(items, k))) <= MessageTokens(n, Flatten(items))
  {
    if items != [] {
      WindowIsLighter(n, items[1..], k);
      TokensAdd(n, ItemMessages(items[0]), Flatten(items[1..]));
      var w := Window(items[1..], k);
      assert ([items[0]] + w)[1..] == w;
      TokensAdd(n, ItemMessages(items[0]), Flatten(w));
    }
  }
}
