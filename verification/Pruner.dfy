/** Pruning: old turns are compacted, repeated notes dropped, and no call loses its answer. */
module Pruner {
  import opened Common
  import opened Messages
  import opened Buffer
  import opened Budget

  const CONTROL_TOOLS := ["report_progress", "report_blocker", "request_task_completion", "request_decomposition"]
  const MARKER := "\n...[context compacted]...\n"

  predicate HasControlTool(t: Turn) {
    exists c :: c in t.calls && c.name in CONTROL_TOOLS
  }

  // ---- Compacting one turn ----

  function Half(n: nat): nat {
    n / 2
  }

  /** The front half and the rounded-up back half of `max` characters; with `max == 0` the back is everything. */
  function CompactText(s: string, max: nat): string {
    if |s| <= max then s
    else if max == 0 then MARKER + s
    else s[..Half(max)] + MARKER + s[|s| - (max - Half(max))..]
  }

  /** Compaction makes a text longer exactly when it is over the limit by less than the marker. */
  lemma CompactTextLength(s: string, max: nat)
    ensures |CompactText(s, max)| > |s| <==> |s| > max && (max == 0 || |s| < max + |MARKER|)
    ensures max > 0 ==> |CompactText(s, max)| <= max + |MARKER|
    ensures |s| > max > 0 ==>
              var r := CompactText(s, max);
              r[..Half(max)] == s[..Half(max)] && r[|r| - (max - Half(max))..] == s[|s| - (max - Half(max))..]
  {
    if |s| > max > 0 {
      var r := CompactText(s, max);
      assert |r| == max + |MARKER|;
    }
  }

  function ReasonText(r: Reason): string {
    match r
    case StaleReason => "stale"
    case SupersededReason => "superseded"
    case OldReason => "old"
  }

  /** The result of a tool message; text that does not parse stands for itself. */
  function ResultOf(r: Reply): Observation {
    match r.content
    case Parsed(o) => o
    case Raw(text) =>
      Observation("", r.name, true, "raw tool message", Plain(text),
                  Metadata("", NoWrite, "", 0, None, false, None, None, None, None))
  }

  function CompactOutput(o: Observation, reason: Reason, max: nat): Output {
    if o.tool == "bash" then BashCard(o.meta.command, o.meta.exitCode, o.summary, o.meta.artifact, o.meta.codeEpoch, reason)
    else if o.tool == "read_file" then ReadCard(o.meta.path, o.meta.sha, reason)
    else if o.output.Plain? then Plain(CompactText(o.output.text, max))
    else o.output
  }

  function CompactReply(r: Reply, step: nat, reason: Reason, max: nat): Reply {
    var o := ResultOf(r);
    r.(content := Parsed(o.(
      output := CompactOutput(o, reason, max),
      summary := o.summary + " [" + ReasonText(reason) + "; compacted]",
      meta := o.meta.(contextStatus := Some(reason), originalStep := Some(step)))))
  }

  function CompactReplies(rs: seq<Reply>, step: nat, reason: Reason, max: nat): (r: seq<Reply>)
    ensures |r| == |rs| && forall i :: 0 <= i < |rs| ==> r[i] == CompactReply(rs[i], step, reason, max)
  {
    seq(|rs|, i requires 0 <= i < |rs| => CompactReply(rs[i], step, reason, max))
  }

  function CompactTurn(t: Turn, reason: Reason, max: nat): Turn {
    t.(replies := CompactReplies(t.replies, t.step, reason, max))
  }

  /** A turn with the contents of its replies left out: the calls asked and the ids answered. */
  datatype Skeleton = NoteSkeleton(note: Item) | TurnSkeleton(content: string, calls: seq<Call>, step: nat, ids: seq<string>)

  function SkeletonOf(i: Item): Skeleton {
    match i
    case Note(_, _, _) => NoteSkeleton(i)
    case ToolTurn(t) => TurnSkeleton(t.content, t.calls, t.step, ReplyIds(t.replies))
  }

  lemma CompactKeepsSkeleton(t: Turn, reason: Reason, max: nat)
    ensures SkeletonOf(ToolTurn(CompactTurn(t, reason, max))) == SkeletonOf(ToolTurn(t))
    ensures Finished(t) ==> Finished(CompactTurn(t, reason, max))
  {
    assert ReplyIds(CompactTurn(t, reason, max).replies) == ReplyIds(t.replies);
  }

  // ---- Notes ----

  /** The words in lower case, one space between them; `gap` says that a space is due. */
  function Words(s: string, gap: bool): string {
    if s == "" then ""
    else if IsSpace(s[0]) then Words(s[1..], true)
    else (if gap then " " else "") + [Lower(s[0])] + Words(s[1..], false)
  }

  function SkipBlanks(s: string): string {
    if s != "" && IsSpace(s[0]) then SkipBlanks(s[1..]) else s
  }

  function Normalize(s: string): string {
    Words(SkipBlanks(s), false)
  }

  // ---- Pruning ----

  /** What happens to a turn: nothing, or compaction for a reason. */
  datatype Treatment = Keep | Compact(reason: Reason)

  function TreatmentOf(c: ContextConfig, t: Turn, recent: bool): Treatment {
    if recent || HasControlTool(t) then Keep
    else if t.status == StaleTurn then Compact(StaleReason)
    else if t.status == SupersededTurn then Compact(SupersededReason)
    else if c.compactOld then Compact(OldReason)
    else Keep
  }

  function Treated(c: ContextConfig, t: Turn, recent: bool): Turn {
    match TreatmentOf(c, t, recent)
    case Keep => t
    case Compact(reason) => CompactTurn(t, reason, c.maxChars)
  }

  /** Is the first turn of `items` among the last turns that stay whole? */
  predicate RecentHere(c: ContextConfig, items: seq<Item>) {
    |Turns(items)| <= c.recentFullTurns
  }

  function Pruned(c: ContextConfig, items: seq<Item>, seen: set<string>): seq<Item> {
    if items == [] then []
    else
      match items[0]
      case Note(_, content, _) =>
        if c.deduplicate && Normalize(content) in seen then Pruned(c, items[1..], seen)
        else [items[0]] + Pruned(c, items[1..], seen + {Normalize(content)})
      case ToolTurn(t) =>
        [ToolTurn(Treated(c, t, RecentHere(c, items)))] + Pruned(c, items[1..], seen)
  }

  // ---- What pruning keeps ----

  /** Turn `i` of the pruned context is turn `i` of the context, treated. */
  lemma {:induction false} PrunedTurn(c: ContextConfig, items: seq<Item>, seen: set<string>, i: nat)
    requires i < |Turns(items)|
    ensures |Turns(Pruned(c, items, seen))| == |Turns(items)|
    ensures Turns(Pruned(c, items, seen))[i] == Treated(c, Turns(items)[i], |Turns(items)| - i <= c.recentFullTurns)
  {
    var rest := items[1..];
    match items[0]
    case Note(_, content, _) =>
      var seen' := if c.deduplicate && Normalize(content) in seen then seen else seen + {Normalize(content)};
      PrunedTurn(c, rest, seen', i);
      assert Pruned(c, items, seen) == Pruned(c, rest, seen') || Pruned(c, items, seen)[1..] == Pruned(c, rest, seen');
    case ToolTurn(t) =>
      assert Pruned(c, items, seen)[1..] == Pruned(c, rest, seen);
      if i > 0 {
        PrunedTurn(c, rest, seen, i - 1);
      } else {
        PrunedTurnCount(c, rest, seen);
      }
  }

  lemma {:induction false} PrunedTurnCount(c: ContextConfig, items: seq<Item>, seen: set<string>)
    ensures |Turns(Pruned(c, items, seen))| == |Turns(items)|
  {
    if items != [] {
      var seen' := if items[0].Note? && !(c.deduplicate && Normalize(items[0].content) in seen)
                   then seen + {Normalize(items[0].content)} else seen;
      PrunedTurnCount(c, items[1..], seen');
      assert Pruned(c, items, seen) == Pruned(c, items[1..], seen') || Pruned(c, items, seen)[1..] == Pruned(c, items[1..], seen');
    }
  }

  /** Every turn survives with the same calls and answers, and recent turns and control turns are untouched. */
  lemma PruneKeepsTurns(c: ContextConfig, items: seq<Item>, i: nat)
    requires i < |Turns(items)|
    ensures |Turns(Pruned(c, items, {}))| == |Turns(items)|
    ensures var was, now := Turns(items)[i], Turns(Pruned(c, items, {}))[i];
      && SkeletonOf(ToolTurn(now)) == SkeletonOf(ToolTurn(was))
      && (|Turns(items)| - i <= c.recentFullTurns || HasControlTool(was) ==> now == was)
  {
    PrunedTurn(c, items, {}, i);
    var t := Turns(items)[i];
    match TreatmentOf(c, t, |Turns(items)| - i <= c.recentFullTurns)
    case Keep =>
    case Compact(reason) => CompactKeepsSkeleton(t, reason, c.maxChars);
  }

  /** A turn is compacted exactly if it is not recent, used no control tool, and is stale, superseded or merely old where that counts. */
  lemma PruneTreats(c: ContextConfig, items: seq<Item>, i: nat)
    requires i < |Turns(items)| && |Turns(Pruned(c, items, {}))| == |Turns(items)|
    ensures var was, now := Turns(items)[i], Turns(Pruned(c, items, {}))[i];
      var spared := |Turns(items)| - i <= c.recentFullTurns
                    || exists x :: x in was.calls && x.name in ["report_progress", "report_blocker", "request_task_completion",
                                                                "request_decomposition"];
      now == if spared then was
             else if was.status == StaleTurn then CompactTurn(was, StaleReason, c.maxChars)
             else if was.status == SupersededTurn then CompactTurn(was, SupersededReason, c.maxChars)
             else if c.compactOld then CompactTurn(was, OldReason, c.maxChars) else was
  {
    hide CompactTurn;
    PrunedTurn(c, items, {}, i);
  }

  /** What a compacted result still says: a command its card, a read its hash, other text its two ends. */
  lemma CompactedSays(r: Reply, step: nat, reason: Reason, max: nat)
    requires r.content.Parsed?
    ensures var o, u := r.content.value, CompactReply(r, step, reason, max);
      && u.callId == r.callId && u.name == r.name && u.content.Parsed?
      && u.content.value.tool == o.tool && u.content.value.success == o.success && u.content.value.callId == o.callId
      && u.content.value.meta == o.meta.(contextStatus := Some(reason), originalStep := Some(step))
      && (o.tool == "bash" ==>
            u.content.value.output == BashCard(o.meta.command, o.meta.exitCode, o.summary, o.meta.artifact, o.meta.codeEpoch, reason))
      && (o.tool == "read_file" ==> u.content.value.output == ReadCard(o.meta.path, o.meta.sha, reason))
      && (o.tool != "bash" && o.tool != "read_file" && o.output.Plain? ==> u.content.value.output == Plain(CompactText(o.output.text, max)))
      && o.summary <= u.content.value.summary
  {
  }

  /** The notes no earlier note of which reads the same. */
  function FirstOccurrences(notes: seq<Item>): seq<Item> {
    if notes == [] then []
    else
      var front, last := notes[..|notes| - 1], notes[|notes| - 1];
      FirstOccurrences(front) + if last.Note? && Normalize(last.content) in Readings(front) then [] else [last]
  }

  function Readings(notes: seq<Item>): set<string> {
    set n | n in notes && n.Note? :: Normalize(n.content)
  }

  lemma OneMoreNote(before: seq<Item>, note: Item)
    requires note.Note?
    ensures FirstOccurrences(before + [note]) ==
            FirstOccurrences(before) + if Normalize(note.content) in Readings(before) then [] else [note]
    ensures Readings(before + [note]) == Readings(before) + {Normalize(note.content)}
  {
    assert (before + [note])[..|before|] == before;
  }

  lemma PrunedNotesFirst(c: ContextConfig, items: seq<Item>, seen: set<string>)
    requires c.deduplicate && items != []
    ensures items[0].ToolTurn? ==>
              Notes(Pruned(c, items, seen)) == Notes(Pruned(c, items[1..], seen)) && Notes(items) == Notes(items[1..])
    ensures items[0].Note? ==> Notes(items) == [items[0]] + Notes(items[1..])
    ensures items[0].Note? && Normalize(items[0].content) in seen ==>
              Notes(Pruned(c, items, seen)) == Notes(Pruned(c, items[1..], seen))
    ensures items[0].Note? && Normalize(items[0].content) !in seen ==>
              Notes(Pruned(c, items, seen)) == [items[0]] + Notes(Pruned(c, items[1..], seen + {Normalize(items[0].content)}))
  {
    var now := Pruned(c, items, seen);
    if items[0].ToolTurn? { assert now[1..] == Pruned(c, items[1..], seen); }
    if items[0].Note? && Normalize(items[0].content) !in seen {
      assert now[1..] == Pruned(c, items[1..], seen + {Normalize(items[0].content)});
    }
  }

  lemma {:induction false} PrunedNotes(c: ContextConfig, items: seq<Item>, before: seq<Item>)
    requires c.deduplicate
    ensures FirstOccurrences(before) + Notes(Pruned(c, items, Readings(before))) == FirstOccurrences(before + Notes(items))
  {
    hide *;
    if items == [] {
      NoNotes(c, before);
    } else {
      PrunedNotesFirst(c, items, Readings(before));
      if items[0].Note? {
        OneMoreNote(before, items[0]);
        NoteMoves(before, items[0], Notes(items[1..]));
        NoteMoves(FirstOccurrences(before), items[0], Notes(Pruned(c, items[1..], Readings(before + [items[0]]))));
        AddNothing(FirstOccurrences(before));
        PrunedNotes(c, items[1..], before + [items[0]]);
      } else {
        PrunedNotes(c, items[1..], before);
      }
    }
  }

  lemma NoNotes(c: ContextConfig, before: seq<Item>)
    ensures FirstOccurrences(before) + Notes(Pruned(c, [], Readings(before))) == FirstOccurrences(before + Notes([]))
  {
    assert before + [] == before && FirstOccurrences(before) + [] == FirstOccurrences(before);
  }

  lemma AddNothing(s: seq<Item>)
    ensures s + [] == s
  {
  }

  lemma NoteMoves(before: seq<Item>, note: Item, rest: seq<Item>)
    ensures before + ([note] + rest) == before + [note] + rest
    ensures note.Note? && Normalize(note.content) in Readings(before) ==> Readings(before + [note]) == Readings(before)
  {
    if note.Note? { OneMoreNote(before, note); }
  }

  lemma {:induction false} AllNotesStay(c: ContextConfig, items: seq<Item>, seen: set<string>)
    requires !c.deduplicate
    ensures Notes(Pruned(c, items, seen)) == Notes(items)
  {
    if items != [] {
      var seen' := if items[0].Note? then seen + {Normalize(items[0].content)} else seen;
      AllNotesStay(c, items[1..], seen');
      assert Pruned(c, items, seen)[1..] == Pruned(c, items[1..], seen');
    }
  }

  /** Of the notes that read the same only the first stays; without deduplication all stay. */
  lemma PruneKeepsFirstNotes(c: ContextConfig, items: seq<Item>)
    ensures Notes(Pruned(c, items, {})) == if c.deduplicate then FirstOccurrences(Notes(items)) else Notes(items)
  {
    if c.deduplicate {
      assert Readings([]) == {} && [] + Notes(items) == Notes(items);
      PrunedNotes(c, items, []);
    } else {
      AllNotesStay(c, items, {});
    }
  }

  function Skeletons(items: seq<Item>): seq<Skeleton> {
    if items == [] then [] else [SkeletonOf(items[0])] + Skeletons(items[1..])
  }

  /** Nothing is added or moved, and every turn stays finished. */
  lemma {:induction false} PruneKeepsOrder(c: ContextConfig, items: seq<Item>, seen: set<string>)
    ensures IsSubsequence(Skeletons(Pruned(c, items, seen)), Skeletons(items))
    ensures AllFinished(items) ==> AllFinished(Pruned(c, items, seen))
  {
    if items != [] {
      var rest := items[1..];
      match items[0]
      case Note(_, content, _) =>
        var seen' := if c.deduplicate && Normalize(content) in seen then seen else seen + {Normalize(content)};
        PruneKeepsOrder(c, rest, seen');
        assert Pruned(c, items, seen) == Pruned(c, rest, seen') || Pruned(c, items, seen)[1..] == Pruned(c, rest, seen');
      case ToolTurn(t) =>
        PruneKeepsOrder(c, rest, seen);
        match TreatmentOf(c, t, RecentHere(c, items)) {
          case Keep =>
          case Compact(reason) => CompactKeepsSkeleton(t, reason, c.maxChars);
        }
        assert Pruned(c, items, seen)[1..] == Pruned(c, rest, seen);
    }
  }

  /** Whatever is compacted or dropped, the pruned context is well paired. */
  lemma PrunedIsPaired(c: ContextConfig, system: string, anchor: string, items: seq<Item>)
    requires AllFinished(items)
    ensures WellPaired(Exported(system, anchor, Pruned(c, items, {})))
  {
    PruneKeepsOrder(c, items, {});
    ExportIsPaired(system, anchor, Pruned(c, items, {}));
  }

  // ---- The pass ----

  datatype Report = Report(tokensBefore: nat, tokensAfter: nat, removed: nat, stale: nat, superseded: nat, compacted: nat, items: nat)

  /** One if the first item is a turn that gets this treatment. */
  function CountHere(c: ContextConfig, items: seq<Item>, treatment: Treatment): nat
    requires items != []
  {
    if items[0].ToolTurn? && TreatmentOf(c, items[0].turn, RecentHere(c, items)) == treatment then 1 else 0
  }

  function Count(c: ContextConfig, items: seq<Item>, treatment: Treatment): nat {
    if items == [] then 0 else Count(c, items[1..], treatment) + CountHere(c, items, treatment)
  }

  function Removed(before: nat, after: nat): nat {
    if before > after then before - after else 0
  }

  /** The items counted as removed: stale and superseded turns count twice. */
  method Prune(c: ContextConfig, n: Counter, buffer: ContextBuffer, tools: seq<Tool>, before: nat)
    returns (messages: seq<Message>, report: Report)
    requires ValidContext(c) && buffer.Valid()
    ensures messages == Exported(buffer.system, buffer.anchor, Pruned(c, buffer.items, {}))
    ensures report.tokensBefore == before && report.tokensAfter == Total(c, n, messages, tools)
    ensures report.removed == Removed(before, report.tokensAfter)
    ensures report.stale == Count(c, buffer.items, Compact(StaleReason))
    ensures report.superseded == Count(c, buffer.items, Compact(SupersededReason))
    ensures report.compacted == report.stale + report.superseded + Count(c, buffer.items, Compact(OldReason))
    ensures report.items == 2 * report.stale + 2 * report.superseded + Count(c, buffer.items, Compact(OldReason))
  {
    hide Flatten, Normalize, TreatmentOf, Treated, Count, ItemMessages, Pruned, Turns, RecentHere, ContextBuffer.Valid, Heading;
    var items := buffer.items;
    messages := Heading(buffer.system, buffer.anchor);
    var stale, superseded, compacted := 0, 0, 0;
    var seen: set<string> := {};
    assert items[0..] == items;
    for i := 0 to |items|
      invariant messages + Flatten(Pruned(c, items[i..], seen)) == Exported(buffer.system, buffer.anchor, Pruned(c, items, {}))
      invariant stale + Count(c, items[i..], Compact(StaleReason)) == Count(c, items, Compact(StaleReason))
      invariant superseded + Count(c, items[i..], Compact(SupersededReason)) == Count(c, items, Compact(SupersededReason))
      invariant compacted + Count(c, items[i..], Compact(OldReason)) == stale + superseded + Count(c, items, Compact(OldReason))
    {
      ghost var rest := items[i..];
      assert rest[0] == items[i] && rest[1..] == items[i + 1..];
      PruneFirst(c, rest, seen);
      CountFirst(c, rest);
      match items[i] {
        case Note(_, content, _) =>
          var reading := Normalize(content);
          if !(c.deduplicate && reading in seen) {
            seen := seen + {reading};
            messages := messages + ItemMessages(items[i]);
          }
        case ToolTurn(t) =>
          var recent := RecentHere(c, items[i..]);
          messages := messages + ItemMessages(ToolTurn(Treated(c, t, recent)));
          match TreatmentOf(c, t, recent) {
            case Keep =>
            case Compact(reason) =>
              compacted := compacted + 1;
              if reason == StaleReason { stale := stale + 1; }
              if reason == SupersededReason { superseded := superseded + 1; }
          }
      }
    }
    assert items[|items|..] == [];
    NothingToPrune(c, seen);
    var after := MeasureRequest(c, n, messages, tools);
    report := Report(before, after.total, Removed(before, after.total), stale, superseded, compacted, stale + superseded + compacted);
  }

  lemma PruneFirst(c: ContextConfig, items: seq<Item>, seen: set<string>)
    requires items != []
    ensures items[0].Note? ==>
              Flatten(Pruned(c, items, seen)) ==
              if c.deduplicate && Normalize(items[0].content) in seen then Flatten(Pruned(c, items[1..], seen))
              else ItemMessages(items[0]) + Flatten(Pruned(c, items[1..], seen + {Normalize(items[0].content)}))
    ensures items[0].ToolTurn? ==>
              Flatten(Pruned(c, items, seen)) ==
              ItemMessages(ToolTurn(Treated(c, items[0].turn, RecentHere(c, items)))) + Flatten(Pruned(c, items[1..], seen))
  {
    match items[0]
    case Note(_, content, _) => FlattenFirst(items[0], Pruned(c, items[1..], seen + {Normalize(content)}));
    case ToolTurn(t) => FlattenFirst(ToolTurn(Treated(c, t, RecentHere(c, items))), Pruned(c, items[1..], seen));
  }

  lemma CountFirst(c: ContextConfig, items: seq<Item>)
    requires items != []
    ensures forall treatment :: Count(c, items, treatment) == Count(c, items[1..], treatment) + CountHere(c, items, treatment)
  {
  }

  lemma NothingToPrune(c: ContextConfig, seen: set<string>)
    ensures Flatten(Pruned(c, [], seen)) == [] && forall treatment :: Count(c, [], treatment) == 0
  {
  }

  lemma FlattenFirst(i: Item, rest: seq<Item>)
    ensures Flatten([i] + rest) == ItemMessages(i) + Flatten(rest)
  {
    assert ([i] + rest)[1..] == rest;
  }

  /** The window of the last turns, with all notes. */
  method RecentTurns(c: ContextConfig, n: Counter, buffer: ContextBuffer, tools: seq<Tool>, before: nat)
    returns (messages: seq<Message>, report: Report)
    requires ValidContext(c) && buffer.Valid() && buffer.active.None?
    ensures messages == Exported(buffer.system, buffer.anchor, Window(buffer.items, c.recentFullTurns))
    ensures report.tokensBefore == before && report.tokensAfter == Total(c, n, messages, tools)
    ensures report.removed == Removed(before, report.tokensAfter)
    ensures report.items == Removed(|Exported(buffer.system, buffer.anchor, buffer.items)|, |messages|)
  {
    var window := buffer.ExportWindow(Some(c.recentFullTurns), true);
    messages := window.value;
    var all := buffer.ExportMessages();
    var after := MeasureRequest(c, n, messages, tools);
    report := Report(before, after.total, Removed(before, after.total), 0, 0, 0, Removed(|all.value|, |messages|));
  }
}
