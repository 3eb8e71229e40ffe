/** The context buffer: whole tool turns and notes, exported in full or as a window of recent turns. */
module Buffer {
  import opened Common
  import opened Messages

  /** A turn that may still wait for replies. */
  ghost predicate Begun(t: Turn) {
    && t.calls != [] && "" !in CallIds(t.calls) && Distinct(ReplyIds(t.replies))
    && forall x :: x in ReplyIds(t.replies) ==> x in CallIds(t.calls)
  }

  // ---- Windows ----

  /** All notes, and the last `k` turns. */
  function Window(items: seq<Item>, k: int): seq<Item> {
    if items == [] then []
    else if items[0].Note? || |Turns(items)| <= k then [items[0]] + Window(items[1..], k)
    else Window(items[1..], k)
  }

  function LastOf<T>(s: seq<T>, k: int): seq<T> {
    if k <= 0 then [] else if |s| <= k then s else s[|s| - k..]
  }

  /** `a` is `b` with some elements left out. */
  predicate IsSubsequence<T(==)>(a: seq<T>, b: seq<T>) {
    a == [] || (b != [] && ((a[0] == b[0] && IsSubsequence(a[1..], b[1..])) || IsSubsequence(a, b[1..])))
  }

  lemma {:induction false} WindowOfFew(items: seq<Item>, k: int)
    requires |Turns(items)| <= k
    ensures Window(items, k) == items
  {
    if items != [] { WindowOfFew(items[1..], k); }
  }

  lemma {:induction false} WindowKeepsOrder(items: seq<Item>, k: int)
    ensures IsSubsequence(Window(items, k), items)
  {
    if items != [] { WindowKeepsOrder(items[1..], k); }
  }

  lemma {:induction false} WindowKeepsNotes(items: seq<Item>, k: int)
    ensures Notes(Window(items, k)) == Notes(items)
  {
    if items != [] {
      WindowKeepsNotes(items[1..], k);
      if items[0].Note? || |Turns(items)| <= k { assert Window(items, k)[1..] == Window(items[1..], k); }
    }
  }

  lemma {:induction false} WindowKeepsTurns(items: seq<Item>, k: int)
    ensures Turns(Window(items, k)) == LastOf(Turns(items), k)
  {
    if |Turns(items)| <= k {
      WindowOfFew(items, k);
    } else if items != [] {
      WindowKeepsTurns(items[1..], k);
      if items[0].Note? { assert Window(items, k)[1..] == Window(items[1..], k); }
    }
  }

  /** A window keeps every note and exactly the last `k` turns, each in its place. */
  lemma WindowKeeps(items: seq<Item>, k: int)
    ensures Notes(Window(items, k)) == Notes(items)
    ensures Turns(Window(items, k)) == LastOf(Turns(items), k)
    ensures IsSubsequence(Window(items, k), items)
  {
    WindowKeepsNotes(items, k);
    WindowKeepsTurns(items, k);
    WindowKeepsOrder(items, k);
  }

  lemma {:induction false} WindowIsFinished(items: seq<Item>, k: int)
    requires AllFinished(items)
    ensures AllFinished(Window(items, k))
  {
    if items != [] { WindowIsFinished(items[1..], k); }
  }

  lemma {:induction false} FewerTurnsLater(items: seq<Item>, i: nat, j: nat)
    requires i <= j <= |items|
    ensures |Turns(items[j..])| <= |Turns(items[i..])|
    decreases j - i
  {
    if i < j {
      FewerTurnsLater(items, i + 1, j);
      assert items[i..][1..] == items[i + 1..];
    }
  }

  /** The position of a turn that has exactly `k` turns from it on splits the turns of the window from the others. */
  lemma CutDecides(items: seq<Item>, from: nat, k: int, i: nat)
    requires from <= |items| && |Turns(items[from..])| == k && i < |items| && items[i].ToolTurn?
    ensures i >= from <==> |Turns(items[i..])| <= k
  {
    if i >= from {
      FewerTurnsLater(items, from, i);
    } else {
      assert items[i..][1..] == items[i + 1..];
      FewerTurnsLater(items, i + 1, from);
    }
  }

  // ---- The buffer ----

  /** The items an export shows. */
  function Selected(items: seq<Item>, recent: Option<int>, includeMessages: bool): seq<Item> {
    Chosen(if recent.Some? then Window(items, recent.value) else items, includeMessages)
  }

  function Chosen(items: seq<Item>, includeMessages: bool): seq<Item> {
    if includeMessages then items else OnlyTurns(items)
  }

  lemma ChooseFirst(items: seq<Item>, includeMessages: bool)
    requires items != []
    ensures Flatten(Chosen(items, includeMessages)) ==
            (if includeMessages || items[0].ToolTurn? then ItemMessages(items[0]) else []) + Flatten(Chosen(items[1..], includeMessages))
  {
    if !includeMessages && items[0].ToolTurn? { assert OnlyTurns(items)[1..] == OnlyTurns(items[1..]); }
  }

  function OnlyTurns(items: seq<Item>): seq<Item> {
    if items == [] then []
    else if items[0].ToolTurn? then [items[0]] + OnlyTurns(items[1..])
    else OnlyTurns(items[1..])
  }

  lemma {:induction false} OnlyTurnsAreTheTurns(items: seq<Item>)
    ensures Turns(OnlyTurns(items)) == Turns(items) && Notes(OnlyTurns(items)) == []
    ensures AllFinished(items) ==> AllFinished(OnlyTurns(items))
  {
    if items != [] {
      OnlyTurnsAreTheTurns(items[1..]);
      if items[0].ToolTurn? { assert OnlyTurns(items)[1..] == OnlyTurns(items[1..]); }
    }
  }

  lemma ChooseNone(includeMessages: bool)
    ensures Flatten(Chosen([], includeMessages)) == []
  {
  }

  function Heading(system: string, anchor: string): seq<Message> {
    [Say(System, system), Say(User, anchor)]
  }

  function Exported(system: string, anchor: string, items: seq<Item>): seq<Message> {
    Heading(system, anchor) + Flatten(items)
  }

  /** Whatever finished items are shown after the two heading messages, the list is well paired. */
  lemma ExportIsPaired(system: string, anchor: string, items: seq<Item>)
    requires AllFinished(items)
    ensures WellPaired(Exported(system, anchor, items))
  {
    FlattenIsPaired(items);
    JoinKeepsPairs(Heading(system, anchor), Flatten(items));
  }

  /** Every export of finished items is well paired. */
  lemma EveryExportIsPaired(system: string, anchor: string, items: seq<Item>, recent: Option<int>, includeMessages: bool)
    requires AllFinished(items)
    ensures WellPaired(Exported(system, anchor, Selected(items, recent, includeMessages)))
  {
    if recent.Some? { WindowIsFinished(items, recent.value); }
    OnlyTurnsAreTheTurns(if recent.Some? then Window(items, recent.value) else items);
    ExportIsPaired(system, anchor, Selected(items, recent, includeMessages));
  }

  class ContextBuffer {
    const system: string
    var anchor: string
    var items: seq<Item>
    var active: Option<Turn>
    var segment: nat
    var resets: nat

    ghost predicate Valid()
      reads this
    {
      AllFinished(items) && (active.Some? ==> Begun(active.value)) && segment == resets + 1
    }

    constructor (system: string, anchor: string)
      ensures Valid() && this.system == system && this.anchor == anchor && items == [] && active == None && resets == 0
    {
      this.system, this.anchor, items, active, segment, resets := system, anchor, [], None, 1, 0;
    }

    // The methods return false where the source raises an error; nothing has changed then.

    method AddAssistantToolTurn(content: string, calls: seq<Call>, step: nat) returns (ok: bool)
      requires Valid()
      modifies this`active
      ensures Valid() && (ok <==> old(active).None? && calls != [] && "" !in CallIds(calls))
      ensures active == if ok then Some(Turn(content, calls, step, ActiveTurn, [])) else old(active)
    {
      if active.Some? || calls == [] || "" in CallIds(calls) { return false; }
      active := Some(Turn(content, calls, step, ActiveTurn, []));
      return true;
    }

    method AddToolResult(reply: Reply) returns (ok: bool)
      requires Valid()
      modifies this`active
      ensures Valid()
      ensures ok <==> old(active).Some? && reply.callId in CallIds(old(active).value.calls)
                      && reply.callId !in ReplyIds(old(active).value.replies)
      ensures active == if ok then Some(old(active).value.(replies := old(active).value.replies + [reply])) else old(active)
    {
      if active.None? || reply.callId !in CallIds(active.value.calls) { return false; }
      if reply.callId in ReplyIds(active.value.replies) { return false; }
      var turn := active.value;
      var longer := turn.(replies := turn.replies + [reply]);
      assert ReplyIds(longer.replies) == ReplyIds(turn.replies) + [reply.callId];
      active := Some(longer);
      return true;
    }

    method FinalizeTurn() returns (ok: bool)
      requires Valid()
      modifies this`active, this`items
      ensures Valid() && (ok <==> old(active).Some? && Answers(old(active).value.calls, old(active).value.replies))
      ensures items == if ok then old(items) + [ToolTurn(old(active).value)] else old(items)
      ensures active == if ok then None else old(active)
    {
      if active.None? || !SameElements(CallIds(active.value.calls), ReplyIds(active.value.replies)) { return false; }
      items := items + [ToolTurn(active.value)];
      active := None;
      return true;
    }

    /** Reminders, corrections and final answers of the assistant. */
    method AddNote(role: Role, content: string, kind: NoteKind) returns (ok: bool)
      requires Valid()
      modifies this`items
      ensures Valid() && (ok <==> active.None?)
      ensures items == if ok then old(items) + [Note(role, content, kind)] else old(items)
    {
      if active.Some? { return false; }
      items := items + [Note(role, content, kind)];
      return true;
    }

    /** The places of the turns, in order. */
    method TurnIndexes() returns (at: seq<nat>)
      ensures |at| == |Turns(items)|
      ensures forall j :: 0 <= j < |at| ==> at[j] < |items| && |Turns(items[at[j]..])| == |at| - j
    {
      at := [];
      var i := |items|;
      while i > 0
        invariant 0 <= i <= |items|
        invariant |at| == |Turns(items[i..])|
        invariant forall j :: 0 <= j < |at| ==> at[j] < |items| && |Turns(items[at[j]..])| == |at| - j
      {
        i := i - 1;
        assert items[i..][1..] == items[i + 1..];
        if items[i].ToolTurn? { at := [i] + at; }
      }
      assert items[0..] == items;
    }

    /** Finds the place of the `k`-th turn from the end and keeps what comes after it, and all notes. */
    method WindowItems(k: int) returns (kept: seq<Item>)
      ensures kept == Window(items, k)
    {
      var at := TurnIndexes();
      if k > 0 && |at| <= k {
        WindowOfFew(items, k);
        return items;
      }
      var from := if k <= 0 then |items| else at[|at| - k];
      kept := [];
      for i := 0 to |items|
        invariant kept + Window(items[i..], k) == Window(items, k)
      {
        WindowFirst(items, from, k, i);
        if i >= from || items[i].Note? { kept := kept + [items[i]]; }
      }
    }

    lemma WindowFirst(items: seq<Item>, from: nat, k: int, i: nat)
      requires i < |items| && from <= |items| && (if k <= 0 then from == |items| else |Turns(items[from..])| == k)
      ensures Window(items[i..], k) ==
              (if i >= from || items[i].Note? then [items[i]] else []) + Window(items[i + 1..], k)
    {
      assert items[i..][1..] == items[i + 1..];
      if items[i].ToolTurn? && k > 0 { CutDecides(items, from, k, i); }
    }

    method ExportWindow(recent: Option<int>, includeMessages: bool) returns (r: Option<seq<Message>>)
      ensures r == if active.Some? then None else Some(Exported(system, anchor, Selected(items, recent, includeMessages)))
    {
      hide Flatten, Chosen, OnlyTurns, Window, ItemMessages, Heading;
      if active.Some? { return None; }
      var shown := items;
      if recent.Some? { shown := WindowItems(recent.value); }
      var messages := Heading(system, anchor);
      for i := 0 to |shown|
        invariant messages + Flatten(Chosen(shown[i..], includeMessages)) ==
                  Heading(system, anchor) + Flatten(Chosen(shown, includeMessages))
      {
        ghost var rest := shown[i..];
        ChooseFirst(rest, includeMessages);
        assert rest[0] == shown[i] && rest[1..] == shown[i + 1..];
        if includeMessages || shown[i].ToolTurn? { messages := messages + ItemMessages(shown[i]); }
      }
      assert Flatten(Chosen(shown[|shown|..], includeMessages)) == [] by { ChooseNone(includeMessages); }
      assert messages == Heading(system, anchor) + Flatten(Chosen(shown, includeMessages));
      return Some(messages);
    }

    method ExportMessages() returns (r: Option<seq<Message>>)
      ensures r == if active.Some? then None else Some(Exported(system, anchor, items))
    {
      r := ExportWindow(None, true);
    }

    /** Starts a new segment that holds the new anchor, the handoff if there is one, and the instruction. */
    method ResetTo(newAnchor: string, handoff: Option<string>, instruction: string) returns (ok: bool)
      requires Valid()
      modifies this`anchor, this`items, this`segment, this`resets
      ensures Valid() && (ok <==> active.None?)
      ensures ok ==> && anchor == newAnchor && segment == old(segment) + 1 && resets == old(resets) + 1
                     && items == (if handoff.Some? then [Note(User, handoff.value, Ordinary)] else []) + [Note(User, instruction, Ordinary)]
      ensures !ok ==> anchor == old(anchor) && items == old(items) && segment == old(segment) && resets == old(resets)
    {
      if active.Some? { return false; }
      anchor := newAnchor;
      items := [];
      if handoff.Some? { items := items + [Note(User, handoff.value, Ordinary)]; }
      items := items + [Note(User, instruction, Ordinary)];
      segment := segment + 1;
      resets := resets + 1;
      return true;
    }
  }
}
