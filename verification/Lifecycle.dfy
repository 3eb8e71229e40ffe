/** What the model gets to see at each step: the whole context, a window, a pruned or a fresh one, or nothing. */
module Lifecycle {
  import opened Common
  import opened Messages
  import opened Buffer
  import opened Budget
  import opened Staleness
  import P = Pruner
  import H = Handoff

  datatype Action = WholeContext | PrunedContext | Reset | BudgetExhausted

  datatype Preparation = Preparation(action: Action, messages: seq<Message>, before: Measure, after: Measure)

  /** The task anchor and the instruction that open a new segment. */
  datatype Seed = Seed(anchor: string, instruction: string)

  datatype CompactorAnswer = CallFails | NoHandoffCall | InvalidHandoff | OtherSession | GoodHandoff(content: string)

  /** What the model answers the compactor, how records and messages are rendered, and the files' hashes. */
  datatype ContextWorld = ContextWorld(
    answer: nat -> CompactorAnswer, render: H.Record -> string, quote: seq<Message> -> string, disk: string -> Option<string>)

  predicate OnlySays(ms: seq<Message>) {
    forall i :: 0 <= i < |ms| ==> ms[i].Say?
  }

  datatype Counters = Counters(
    recentWindowTrims: nat, prunes: nat, resets: nat, compactions: nat, prunedItems: nat, staleItems: nat,
    supersededItems: nat, tokensRemoved: nat, maxInput: nat)

  function CountReport(k: Counters, r: P.Report, window: bool): Counters {
    var useful := if r.removed > 0 || r.items > 0 then 1 else 0;
    k.(recentWindowTrims := k.recentWindowTrims + if window then useful else 0,
       prunes := k.prunes + if window then 0 else useful,
       prunedItems := k.prunedItems + r.items, staleItems := k.staleItems + r.stale,
       supersededItems := k.supersededItems + r.superseded, tokensRemoved := k.tokensRemoved + r.removed)
  }

  function Larger(a: nat, b: nat): nat {
    if a < b then b else a
  }

  class ContextLifecycleManager {
    const config: ContextConfig
    const counter: Counter
    const world: ContextWorld
    /** Known in project sessions only; a reset needs it. */
    const seed: Option<Seed>
    const tracker: StaleTracker
    var counters: Counters
    var budgetExhausted: bool
    /** Every list the compactor itself handed to the model. */
    var compactorRequests: seq<seq<Message>>

    ghost predicate Valid()
      reads this
    {
      ValidContext(config) && forall ms :: ms in compactorRequests ==> OnlySays(ms)
    }

    constructor (config: ContextConfig, counter: Counter, world: ContextWorld, seed: Option<Seed>)
      requires ValidContext(config)
      ensures Valid() && this.config == config && this.counter == counter && this.world == world && this.seed == seed
      ensures fresh(tracker) && compactorRequests == [] && !budgetExhausted
    {
      this.config, this.counter, this.world, this.seed := config, counter, world, seed;
      tracker := new StaleTracker();
      counters := Counters(0, 0, 0, 0, 0, 0, 0, 0, 0);
      budgetExhausted := false;
      compactorRequests := [];
    }

    /** A list that may be sent. */
    ghost predicate Sendable(ms: seq<Message>, tools: seq<Tool>) {
      WellPaired(ms) && Fits(config, counter, ms, tools)
    }

    /** What the mode may show of these items. */
    ghost predicate Shows(system: string, anchor: string, items: seq<Item>, ms: seq<Message>) {
      match config.mode
      case FullHistory => ms == Exported(system, anchor, items)
      case RecentWindow => ms == Exported(system, anchor, Window(items, config.recentFullTurns))
      case DeterministicPrune => ms == Exported(system, anchor, P.Pruned(config, items, {}))
      case StructuredReset => ms == Exported(system, anchor, items) || ms == Exported(system, anchor, P.Pruned(config, items, {}))
    }

    /** The items of a new segment. */
    ghost predicate BeginsSegment(items: seq<Item>) {
      seed.Some? && |items| == 2 && items[1] == Note(User, seed.value.instruction, Ordinary)
    }

    method RecordBudget(m: Measure)
      modifies this`counters
      ensures counters == old(counters).(maxInput := Larger(old(counters).maxInput, m.messageTokens + m.toolTokens))
    {
      if m.messageTokens + m.toolTokens > counters.maxInput {
        counters := counters.(maxInput := m.messageTokens + m.toolTokens);
      }
    }

    /** Stops the session if the list is at or over the hard stop. */
    method Decide(action: Action, ms: seq<Message>, tools: seq<Tool>, before: Measure) returns (r: Preparation)
      requires ValidContext(config) && WellPaired(ms) && !action.BudgetExhausted?
      modifies this`budgetExhausted
      ensures r.messages == ms && r.before == before && r.after == Measured(config, counter, ms, tools)
      ensures r.action == if Fits(config, counter, ms, tools) then action else BudgetExhausted
      ensures budgetExhausted <==> old(budgetExhausted) || r.action.BudgetExhausted?
    {
      var after := MeasureRequest(config, counter, ms, tools);
      BelowMeansFits(config, counter, ms, tools);
      if after.hardStopExceeded {
        budgetExhausted := true;
        return Preparation(BudgetExhausted, ms, before, after);
      }
      return Preparation(action, ms, before, after);
    }

    // ---- The compactor ----

    /** Asks the model for a handoff; nothing checks the size of these requests. */
    method TryModelCompact(buffer: ContextBuffer) returns (content: Option<string>)
      requires Valid() && buffer.Valid() && buffer.active.None?
      modifies this`compactorRequests
      ensures Valid() && old(compactorRequests) <= compactorRequests
      ensures |compactorRequests| <= |old(compactorRequests)| + config.maxCompactorTries
    {
      var window := buffer.ExportWindow(Some(config.recentFullTurns), true);
      var messages := [Say(System, "handoff"), Say(User, world.quote(window.value))];
      for i := 0 to config.maxCompactorTries
        invariant Valid() && OnlySays(messages) && old(compactorRequests) <= compactorRequests
        invariant |compactorRequests| == |old(compactorRequests)| + i
      {
        var answer := world.answer(|compactorRequests|);
        compactorRequests := compactorRequests + [messages];
        match answer {
          case CallFails => return None;
          case NoHandoffCall => messages := messages + [Say(User, "no call")];
          case InvalidHandoff => messages := messages + [Say(User, "invalid")];
          case OtherSession => messages := messages + [Say(User, "other session")];
          case GoodHandoff(text) => return Some(text);
        }
      }
      return None;
    }

    /** The text of the handoff; `None` if there is no model answer and no fallback, which ends the run. */
    method Compact(buffer: ContextBuffer) returns (content: Option<string>)
      requires Valid() && buffer.Valid() && buffer.active.None?
      modifies this`compactorRequests
      ensures Valid() && old(compactorRequests) <= compactorRequests
      ensures config.fallback ==> content.Some?
      ensures !config.useModel && content.Some? ==>
                exists record :: H.Summarizes(H.Results(buffer.items), world.disk, record) && content.value == world.render(record)
    {
      hide H.Summarizes;
      if config.useModel {
        content := TryModelCompact(buffer);
        if content.Some? { return; }
      }
      if !config.fallback { return None; }
      var record := H.DeterministicHandoff(buffer, world.disk);
      return Some(world.render(record));
    }

    method PerformReset(buffer: ContextBuffer, tools: seq<Tool>, before: Measure) returns (r: Option<Preparation>)
      requires Valid() && buffer.Valid() && buffer.active.None?
      modifies this`counters, this`budgetExhausted, this`compactorRequests
      modifies buffer`anchor, buffer`items, buffer`segment, buffer`resets
      ensures Valid() && buffer.Valid()
      ensures r.None? ==> !config.fallback
      ensures r.Some? ==> WellPaired(r.value.messages)
      ensures r.Some? && !r.value.action.BudgetExhausted? ==> r.value.action == Reset && Sendable(r.value.messages, tools)
      ensures r.Some? ==> r.value.messages == Exported(buffer.system, buffer.anchor, buffer.items)
      ensures r.Some? && r.value.action.BudgetExhausted? ==> budgetExhausted
      ensures seed.None? ==> r.Some? && r.value.action.BudgetExhausted?
      ensures seed.None? || r.None? ==> buffer.items == old(buffer.items) && buffer.resets == old(buffer.resets)
      ensures seed.Some? && r.Some? ==> && buffer.resets == old(buffer.resets) + 1 && buffer.anchor == seed.value.anchor
                                        && exists text :: buffer.items == [Note(User, text, Ordinary), Note(User, seed.value.instruction, Ordinary)]
      ensures counters.resets - old(counters.resets) == buffer.resets - old(buffer.resets)
      ensures counters.maxInput >= old(counters.maxInput)
      ensures r.Some? ==> r.value.before == before
    {
      if seed.None? {
        budgetExhausted := true;
        var all := buffer.ExportMessages();
        ExportIsPaired(buffer.system, buffer.anchor, buffer.items);
        return Some(Preparation(BudgetExhausted, all.value, before, before));
      }
      var content := Compact(buffer);
      if content.None? { return None; }
      counters := counters.(resets := counters.resets + 1, compactions := counters.compactions + 1);
      var ok := buffer.ResetTo(seed.value.anchor, content, seed.value.instruction);
      var messages := buffer.ExportMessages();
      ExportIsPaired(buffer.system, buffer.anchor, buffer.items);
      var decided := Decide(Reset, messages.value, tools, before);
      RecordBudget(decided.after);
      return Some(decided);
    }

    // ---- One preparation ----

    method PrepareWindow(buffer: ContextBuffer, tools: seq<Tool>, before: Measure) returns (r: Preparation)
      requires Valid() && buffer.Valid() && buffer.active.None?
      modifies this`counters, this`budgetExhausted
      ensures Valid()
      ensures r.messages == Exported(buffer.system, buffer.anchor, Window(buffer.items, config.recentFullTurns))
      ensures r.action.BudgetExhausted? ==> budgetExhausted
      ensures WellPaired(r.messages)
      ensures r.action == if Fits(config, counter, r.messages, tools) then PrunedContext else BudgetExhausted
      ensures counters.resets == old(counters.resets) && counters.maxInput == old(counters.maxInput)
      ensures r.before == before
    {
      var messages, report := P.RecentTurns(config, counter, buffer, tools, before.total);
      counters := CountReport(counters, report, true);
      WindowIsFinished(buffer.items, config.recentFullTurns);
      ExportIsPaired(buffer.system, buffer.anchor, Window(buffer.items, config.recentFullTurns));
      r := Decide(PrunedContext, messages, tools, before);
    }

    method PrepareReset(buffer: ContextBuffer, tools: seq<Tool>, before: Measure, all: seq<Message>)
      returns (r: Option<Preparation>)
      requires Valid() && buffer.Valid() && buffer.active.None?
      requires all == Exported(buffer.system, buffer.anchor, buffer.items) && before == Measured(config, counter, all, tools)
      modifies this`counters, this`budgetExhausted, this`compactorRequests
      modifies buffer`anchor, buffer`items, buffer`segment, buffer`resets
      ensures Valid() && buffer.Valid()
      ensures r.None? ==> !config.fallback
      ensures r.Some? && r.value.action.BudgetExhausted? ==> budgetExhausted
      ensures r.Some? ==> WellPaired(r.value.messages)
      ensures r.Some? && !r.value.action.BudgetExhausted? ==> Sendable(r.value.messages, tools)
      ensures r.Some? && r.value.action == WholeContext ==> r.value.messages == all
      ensures r.Some? && r.value.action == PrunedContext ==>
                r.value.messages == Exported(buffer.system, buffer.anchor, P.Pruned(config, old(buffer.items), {}))
      ensures r.Some? && r.value.action == Reset <==> buffer.resets == old(buffer.resets) + 1 && r.Some? && !r.value.action.BudgetExhausted?
      ensures buffer.resets == old(buffer.resets) || buffer.resets == old(buffer.resets) + 1
      ensures if buffer.resets == old(buffer.resets) then buffer.items == old(buffer.items) else BeginsSegment(buffer.items)
      ensures r.Some? && r.value.action == Reset ==> r.value.messages == Exported(buffer.system, buffer.anchor, buffer.items)
      ensures r.Some? && r.value.action == PrunedContext ==> buffer.anchor == old(buffer.anchor)
      ensures r.Some? && r.value.action == WholeContext ==> buffer.anchor == old(buffer.anchor)
      ensures !before.triggerExceeded ==> r == Some(Preparation(WholeContext, all, before, before))
      ensures before.triggerExceeded && Turns(old(buffer.items)) == [] ==>
                r.Some? && r.value.messages == all && (r.value.action == WholeContext <==> Fits(config, counter, all, tools))
      ensures before.triggerExceeded && Turns(old(buffer.items)) != [] ==>
                var pruned := Exported(buffer.system, old(buffer.anchor), P.Pruned(config, old(buffer.items), {}));
                (r.Some? && r.value.action == PrunedContext) <==> !Measured(config, counter, pruned, tools).triggerExceeded
      ensures counters.resets - old(counters.resets) == buffer.resets - old(buffer.resets)
      ensures counters.maxInput >= old(counters.maxInput)
      ensures r.Some? ==> r.value.before == before
    {
      hide Finished, WellPaired, Measured, Total, Flatten, Turns, P.Pruned, P.Count;
      ExportIsPaired(buffer.system, buffer.anchor, buffer.items);
      BelowMeansFits(config, counter, all, tools);
      if !before.triggerExceeded { return Some(Preparation(WholeContext, all, before, before)); }
      if Turns(buffer.items) == [] {
        var whole := Decide(WholeContext, all, tools, before);
        return Some(whole);
      }
      var messages, report := P.Prune(config, counter, buffer, tools, before.total);
      var after := MeasureRequest(config, counter, messages, tools);
      counters := CountReport(counters, report, false);
      if !after.triggerExceeded {
        P.PrunedIsPaired(config, buffer.system, buffer.anchor, buffer.items);
        BelowMeansFits(config, counter, messages, tools);
        return Some(Preparation(PrunedContext, messages, before, after));
      }
      r := PerformReset(buffer, tools, before);
    }

    /**
     Marks stale turns and chooses what to send. In every mode the list is well paired, and unless the budget is
     reported exhausted its estimated total is below the hard stop. `None` stands for an error that ends the run.
     */
    method Prepare(buffer: ContextBuffer, tools: seq<Tool>) returns (r: Option<Preparation>)
      requires Valid() && buffer.Valid()
      modifies this`counters, this`budgetExhausted, this`compactorRequests, tracker
      modifies buffer`anchor, buffer`items, buffer`segment, buffer`resets
      ensures Valid() && buffer.Valid()
      ensures old(buffer.active).Some? ==> r.None?
      ensures r.Some? && r.value.action.BudgetExhausted? ==> budgetExhausted
      ensures r.Some? ==> WellPaired(r.value.messages)
      ensures r.Some? && !r.value.action.BudgetExhausted? ==> Sendable(r.value.messages, tools)
      ensures r.None? && buffer.active.None? ==> config.mode == StructuredReset && !config.fallback
      ensures config.mode != StructuredReset ==>
                && buffer.anchor == old(buffer.anchor) && buffer.resets == old(buffer.resets)
                && buffer.items == Marked(old(buffer.items), tracker.stale, tracker.superseded)
      ensures buffer.resets == old(buffer.resets) || buffer.resets == old(buffer.resets) + 1
      ensures buffer.resets == old(buffer.resets) ==> buffer.items == Marked(old(buffer.items), tracker.stale, tracker.superseded)
      ensures buffer.resets != old(buffer.resets) ==> BeginsSegment(buffer.items)
      ensures r.Some? && !r.value.action.BudgetExhausted? ==> Shows(buffer.system, buffer.anchor, buffer.items, r.value.messages)
      ensures r.Some? && r.value.action == Reset ==> buffer.resets == old(buffer.resets) + 1
      ensures r.Some? && config.mode == FullHistory ==> r.value.messages == Exported(buffer.system, buffer.anchor, buffer.items)
      ensures r.Some? && config.mode == RecentWindow ==>
                r.value.messages == Exported(buffer.system, buffer.anchor, Window(buffer.items, config.recentFullTurns))
      ensures r.Some? && config.mode == DeterministicPrune ==>
                r.value.messages == Exported(buffer.system, buffer.anchor, P.Pruned(config, buffer.items, {}))
      ensures r.Some? && config.mode != StructuredReset && Fits(config, counter, r.value.messages, tools) ==>
                r.value.action == if config.mode == FullHistory then WholeContext else PrunedContext
      ensures counters.resets - old(counters.resets) == buffer.resets - old(buffer.resets)
      ensures r.Some? ==> counters.maxInput >= r.value.before.messageTokens + r.value.before.toolTokens
      ensures counters.maxInput >= old(counters.maxInput)
    {
      hide Finished, WellPaired, StaleTracker.Tracks, Measured;
      tracker.Refresh(buffer);
      var all := buffer.ExportMessages();
      if all.None? { return None; }
      var before := MeasureRequest(config, counter, all.value, tools);
      RecordBudget(before);
      ExportIsPaired(buffer.system, buffer.anchor, buffer.items);
      match config.mode {
        case FullHistory =>
          var whole := Decide(WholeContext, all.value, tools, before);
          r := Some(whole);
        case RecentWindow =>
          var window := PrepareWindow(buffer, tools, before);
          r := Some(window);
        case StructuredReset =>
          r := PrepareReset(buffer, tools, before, all.value);
        case DeterministicPrune =>
          var messages, report := P.Prune(config, counter, buffer, tools, before.total);
          counters := CountReport(counters, report, false);
          P.PrunedIsPaired(config, buffer.system, buffer.anchor, buffer.items);
          var pruned := Decide(PrunedContext, messages, tools, before);
          r := Some(pruned);
      }
    }
  }
}
