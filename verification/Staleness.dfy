/** Which old tool results no longer describe the code, and which were repeated since. */
module Staleness {
  import opened Common
  import opened Messages
  import opened Buffer

  // ---- What a pass over the buffer sees ----

  datatype Event = Event(step: nat, obs: Observation) {
    predicate IsRead() {
      obs.tool == "read_file" && obs.success
    }

    /** A write that changed the file. */
    predicate IsWrite() {
      obs.tool == "write_file" && obs.success && (obs.meta.write == Created || obs.meta.write == Updated)
    }

    predicate IsBash() {
      obs.tool == "bash"
    }

    /** A verification command that passed. */
    predicate IsPass() {
      IsBash() && obs.success && obs.meta.exitCode == Some(0) && obs.meta.verification
    }

    /** The epoch the result recorded; without one, the tracker's own. */
    function EpochIn(now: int): int {
      if obs.meta.codeEpoch != 0 then obs.meta.codeEpoch else now
    }
  }

  function TurnEvents(step: nat, replies: seq<Reply>): seq<Event> {
    if replies == [] then []
    else TurnEvents(step, replies[..|replies| - 1]) +
         match replies[|replies| - 1].content
         case Parsed(o) => [Event(step, o)]
         case Raw(_) => []
  }

  function ItemEvents(item: Item): seq<Event> {
    match item
    case ToolTurn(t) => TurnEvents(t.step, t.replies)
    case Note(_, _, _) => []
  }

  function Events(items: seq<Item>): seq<Event> {
    if items == [] then [] else Events(items[..|items| - 1]) + ItemEvents(items[|items| - 1])
  }

  function Writes(es: seq<Event>): nat {
    if es == [] then 0 else Writes(es[..|es| - 1]) + if es[|es| - 1].IsWrite() then 1 else 0
  }

  /** The tracker's epoch when it comes to event `i`, if it started at `e0`. */
  function EpochAt(e0: int, es: seq<Event>, i: nat): int
    requires i <= |es|
  {
    e0 + Writes(es[..i])
  }

  function EpochOf(e0: int, es: seq<Event>, i: nat): int
    requires i < |es|
  {
    es[i].EpochIn(EpochAt(e0, es, i))
  }

  // ---- The quadratic definition ----

  predicate ReadThenWritten(es: seq<Event>, i: nat, j: nat) {
    i < j < |es| && es[i].IsRead() && es[j].IsWrite() && es[i].obs.meta.path == es[j].obs.meta.path != ""
  }

  predicate PassedThenWritten(es: seq<Event>, i: nat, j: nat) {
    i < j < |es| && es[i].IsPass() && es[j].IsWrite()
  }

  /** What the pass marks: a passed verification must also not claim a later epoch. */
  predicate Invalidates(e0: int, es: seq<Event>, i: nat, j: nat) {
    ReadThenWritten(es, i, j) || (PassedThenWritten(es, i, j) && EpochOf(e0, es, i) <= EpochAt(e0, es, j))
  }

  ghost predicate MadeStale(e0: int, es: seq<Event>, s: nat) {
    exists i: nat, j: nat :: Invalidates(e0, es, i, j) && es[i].step == s
  }

  predicate Repeats(e0: int, es: seq<Event>, i: nat, j: nat) {
    && i < j < |es| && es[i].IsBash() && es[j].IsBash()
    && es[i].obs.meta.command == es[j].obs.meta.command != "" && EpochOf(e0, es, i) == EpochOf(e0, es, j)
  }

  ghost predicate MadeSuperseded(e0: int, es: seq<Event>, s: nat) {
    exists i: nat, j: nat :: Repeats(e0, es, i, j) && es[i].step == s
  }

  // ---- The linear pass ----

  type Key = (int, string)

  /** The tables the pass keeps. */
  datatype Tables = Tables(readers: map<string, seq<nat>>, last: map<Key, nat>, passes: seq<(nat, int)>)

  ghost predicate ReadAt(es: seq<Event>, i: nat, path: string, s: nat) {
    i < |es| && es[i].IsRead() && es[i].obs.meta.path == path != "" && es[i].step == s
  }

  ghost predicate PassAt(e0: int, es: seq<Event>, i: nat, s: nat, epoch: int) {
    i < |es| && es[i].IsPass() && es[i].step == s && EpochOf(e0, es, i) == epoch
  }

  ghost predicate RunAt(e0: int, es: seq<Event>, i: nat, key: Key) {
    i < |es| && es[i].IsBash() && es[i].obs.meta.command == key.1 != "" && EpochOf(e0, es, i) == key.0
  }

  ghost predicate LastRun(e0: int, es: seq<Event>, i: nat, key: Key) {
    RunAt(e0, es, i, key) && forall j: nat :: i < j < |es| ==> !RunAt(e0, es, j, key)
  }

  predicate Reader(t: Tables, path: string, s: nat) {
    path in t.readers && s in t.readers[path]
  }

  ghost predicate HasRead(es: seq<Event>, path: string, s: nat) {
    exists i: nat :: ReadAt(es, i, path, s)
  }

  ghost predicate HasPass(e0: int, es: seq<Event>, s: nat, epoch: int) {
    exists i: nat :: PassAt(e0, es, i, s, epoch)
  }

  ghost predicate HasRun(e0: int, es: seq<Event>, key: Key) {
    exists i: nat :: RunAt(e0, es, i, key)
  }

  ghost predicate LastRunIn(e0: int, es: seq<Event>, key: Key, s: nat) {
    exists i: nat :: LastRun(e0, es, i, key) && es[i].step == s
  }

  /** The tables describe the events seen so far. */
  ghost predicate Describes(e0: int, es: seq<Event>, t: Tables) {
    && (forall p: string, s: nat :: Reader(t, p, s) <==> HasRead(es, p, s))
    && (forall s: nat, epoch: int :: (s, epoch) in t.passes <==> HasPass(e0, es, s, epoch))
    && (forall key :: key in t.last ==> LastRunIn(e0, es, key, t.last[key]))
    && (forall key :: HasRun(e0, es, key) ==> key in t.last)
  }

  /** Appending an event changes nothing about the earlier ones. */
  lemma SnocEpochs(e0: int, es: seq<Event>, e: Event, i: nat)
    requires i < |es|
    ensures EpochAt(e0, es + [e], i) == EpochAt(e0, es, i) && EpochOf(e0, es + [e], i) == EpochOf(e0, es, i)
    ensures (es + [e])[i] == es[i]
  {
    assert (es + [e])[..i] == es[..i];
  }

  lemma SnocLast(e0: int, es: seq<Event>, e: Event)
    ensures EpochAt(e0, es + [e], |es|) == EpochAt(e0, es, |es|)
    ensures EpochAt(e0, es + [e], |es| + 1) == EpochAt(e0, es, |es|) + if e.IsWrite() then 1 else 0
    ensures EpochOf(e0, es + [e], |es|) == e.EpochIn(EpochAt(e0, es, |es|))
  {
    assert (es + [e])[..|es|] == es && es[..|es|] == es;
    assert (es + [e])[..|es| + 1] == es + [e];
  }

  /** What one more event makes stale. */
  ghost predicate NewlyStale(e0: int, es: seq<Event>, e: Event, s: nat) {
    e.IsWrite() && exists i: nat ::
      ReadAt(es, i, e.obs.meta.path, s) || (i < |es| && PassAt(e0, es, i, s, EpochOf(e0, es, i)) && EpochOf(e0, es, i) <= EpochAt(e0, es, |es|))
  }

  lemma InvalidatedBefore(e0: int, es: seq<Event>, e: Event, i: nat, j: nat)
    requires j < |es|
    ensures Invalidates(e0, es + [e], i, j) <==> Invalidates(e0, es, i, j)
  {
    SnocEpochs(e0, es, e, j);
    if i < j { SnocEpochs(e0, es, e, i); }
    hide EpochAt, EpochOf;
  }

  lemma InvalidatedNow(e0: int, es: seq<Event>, e: Event, i: nat)
    ensures Invalidates(e0, es + [e], i, |es|) <==>
            && e.IsWrite() && i < |es|
            && (ReadAt(es, i, e.obs.meta.path, es[i].step)
                || (PassAt(e0, es, i, es[i].step, EpochOf(e0, es, i)) && EpochOf(e0, es, i) <= EpochAt(e0, es, |es|)))
  {
    SnocLast(e0, es, e);
    if i < |es| { SnocEpochs(e0, es, e, i); }
    hide EpochAt, EpochOf;
  }

  lemma StaleGrows(e0: int, es: seq<Event>, e: Event, s: nat)
    ensures MadeStale(e0, es + [e], s) <==> MadeStale(e0, es, s) || NewlyStale(e0, es, e, s)
  {
    var es' := es + [e];
    hide EpochAt, EpochOf;
    if MadeStale(e0, es', s) {
      var i: nat, j: nat :| Invalidates(e0, es', i, j) && es'[i].step == s;
      if j < |es| { InvalidatedBefore(e0, es, e, i, j); } else { InvalidatedNow(e0, es, e, i); }
      hide Invalidates;
    }
    if MadeStale(e0, es, s) {
      var i: nat, j: nat :| Invalidates(e0, es, i, j) && es[i].step == s;
      InvalidatedBefore(e0, es, e, i, j);
    }
    if NewlyStale(e0, es, e, s) {
      var i: nat :| ReadAt(es, i, e.obs.meta.path, s)
        || (i < |es| && PassAt(e0, es, i, s, EpochOf(e0, es, i)) && EpochOf(e0, es, i) <= EpochAt(e0, es, |es|));
      InvalidatedNow(e0, es, e, i);
    }
  }

  ghost predicate NewlySuperseded(e0: int, es: seq<Event>, e: Event, s: nat) {
    e.IsBash() && exists i: nat ::
      RunAt(e0, es, i, (e.EpochIn(EpochAt(e0, es, |es|)), e.obs.meta.command)) && es[i].step == s
  }

  lemma SupersededGrows(e0: int, es: seq<Event>, e: Event, s: nat)
    ensures MadeSuperseded(e0, es + [e], s) <==> MadeSuperseded(e0, es, s) || NewlySuperseded(e0, es, e, s)
  {
    var es' := es + [e];
    SnocLast(e0, es, e);
    forall i: nat | i < |es|
      ensures EpochOf(e0, es', i) == EpochOf(e0, es, i) && es'[i] == es[i]
    {
      SnocEpochs(e0, es, e, i);
    }
    hide EpochAt;
    var key := (e.EpochIn(EpochAt(e0, es, |es|)), e.obs.meta.command);
    if MadeSuperseded(e0, es', s) {
      var i: nat, j: nat :| Repeats(e0, es', i, j) && es'[i].step == s;
      if j < |es| { assert Repeats(e0, es, i, j); } else { assert RunAt(e0, es, i, key); }
    }
    if MadeSuperseded(e0, es, s) {
      var i: nat, j: nat :| Repeats(e0, es, i, j) && es[i].step == s;
      assert Repeats(e0, es', i, j);
    }
    if NewlySuperseded(e0, es, e, s) {
      var i: nat :| RunAt(e0, es, i, key) && es[i].step == s;
      assert Repeats(e0, es', i, |es|);
    }
  }

  // ---- The tables after one more event ----

  function WithRead(t: Tables, path: string, s: nat): Tables {
    t.(readers := t.readers[path := (if path in t.readers then t.readers[path] else []) + [s]])
  }

  lemma DescribesRead(e0: int, es: seq<Event>, t: Tables, e: Event)
    requires Describes(e0, es, t) && e.IsRead()
    ensures Describes(e0, es + [e], if e.obs.meta.path != "" then WithRead(t, e.obs.meta.path, e.step) else t)
  {
    DescribesReaders(e0, es, t, e);
    DescribesOther(e0, es, t, e);
  }

  lemma SnocRead(es: seq<Event>, e: Event, p: string, s: nat)
    ensures HasRead(es + [e], p, s) <==> HasRead(es, p, s) || (e.IsRead() && e.obs.meta.path == p != "" && e.step == s)
  {
    var es' := es + [e];
    if HasRead(es', p, s) {
      var i: nat :| ReadAt(es', i, p, s);
      assert i < |es| ==> ReadAt(es, i, p, s);
    }
    if HasRead(es, p, s) {
      var i: nat :| ReadAt(es, i, p, s);
      assert ReadAt(es', i, p, s);
    }
    if e.IsRead() && e.obs.meta.path == p != "" && e.step == s { assert ReadAt(es', |es|, p, s); }
  }

  /** The readers table after a read. */
  lemma DescribesReaders(e0: int, es: seq<Event>, t: Tables, e: Event)
    requires Describes(e0, es, t) && e.IsRead()
    ensures var t' := if e.obs.meta.path != "" then WithRead(t, e.obs.meta.path, e.step) else t;
      forall p: string, s: nat :: Reader(t', p, s) <==> HasRead(es + [e], p, s)
  {
    var t' := if e.obs.meta.path != "" then WithRead(t, e.obs.meta.path, e.step) else t;
    forall p: string, s: nat
      ensures Reader(t', p, s) <==> HasRead(es + [e], p, s)
    {
      SnocRead(es, e, p, s);
      assert Reader(t, p, s) <==> HasRead(es, p, s);
    }
  }

  lemma SnocPass(e0: int, es: seq<Event>, e: Event, s: nat, epoch: int)
    ensures HasPass(e0, es + [e], s, epoch) <==>
            HasPass(e0, es, s, epoch) || (e.IsPass() && e.step == s && e.EpochIn(EpochAt(e0, es, |es|)) == epoch)
  {
    var es' := es + [e];
    SnocLast(e0, es, e);
    if HasPass(e0, es', s, epoch) {
      var i: nat :| PassAt(e0, es', i, s, epoch);
      if i < |es| {
        SnocEpochs(e0, es, e, i);
        assert PassAt(e0, es, i, s, epoch);
      }
    }
    if HasPass(e0, es, s, epoch) {
      var i: nat :| PassAt(e0, es, i, s, epoch);
      SnocEpochs(e0, es, e, i);
      assert PassAt(e0, es', i, s, epoch);
    }
    if e.IsPass() && e.step == s && e.EpochIn(EpochAt(e0, es, |es|)) == epoch { assert PassAt(e0, es', |es|, s, epoch); }
  }

  lemma SnocRun(e0: int, es: seq<Event>, e: Event, i: nat, key: Key)
    ensures i < |es| ==> (RunAt(e0, es + [e], i, key) <==> RunAt(e0, es, i, key))
    ensures RunAt(e0, es + [e], |es|, key) <==>
            e.IsBash() && e.obs.meta.command == key.1 != "" && e.EpochIn(EpochAt(e0, es, |es|)) == key.0
  {
    SnocLast(e0, es, e);
    if i < |es| { SnocEpochs(e0, es, e, i); }
  }

  /** An event that is no bash command leaves the other two tables as they are. */
  lemma DescribesOther(e0: int, es: seq<Event>, t: Tables, e: Event)
    requires Describes(e0, es, t) && !e.IsBash()
    ensures forall s: nat, epoch: int :: (s, epoch) in t.passes <==> HasPass(e0, es + [e], s, epoch)
    ensures forall key :: key in t.last ==> LastRunIn(e0, es + [e], key, t.last[key])
    ensures forall key :: HasRun(e0, es + [e], key) ==> key in t.last
  {
    forall s: nat, epoch: int
      ensures (s, epoch) in t.passes <==> HasPass(e0, es + [e], s, epoch)
    {
      SnocPass(e0, es, e, s, epoch);
    }
    forall key | key in t.last
      ensures LastRunIn(e0, es + [e], key, t.last[key])
    {
      SnocRun(e0, es, e, 0, key);
      KeepsLastRun(e0, es, e, key, t.last[key]);
    }
    forall key | HasRun(e0, es + [e], key)
      ensures key in t.last
    {
      OlderRun(e0, es, e, key);
    }
  }

  lemma OlderRun(e0: int, es: seq<Event>, e: Event, key: Key)
    requires HasRun(e0, es + [e], key)
    ensures HasRun(e0, es, key) || RunAt(e0, es + [e], |es|, key)
  {
    var i: nat :| RunAt(e0, es + [e], i, key);
    SnocRun(e0, es, e, i, key);
    assert i < |es| ==> RunAt(e0, es, i, key);
  }

  lemma KeepsLastRun(e0: int, es: seq<Event>, e: Event, key: Key, s: nat)
    requires LastRunIn(e0, es, key, s) && !RunAt(e0, es + [e], |es|, key)
    ensures LastRunIn(e0, es + [e], key, s)
  {
    var i: nat :| LastRun(e0, es, i, key) && es[i].step == s;
    SnocRun(e0, es, e, i, key);
    forall j: nat | i < j < |es + [e]|
      ensures !RunAt(e0, es + [e], j, key)
    {
      SnocRun(e0, es, e, j, key);
    }
    assert LastRun(e0, es + [e], i, key);
  }

  lemma DescribesNothing(e0: int, es: seq<Event>, t: Tables, e: Event)
    requires Describes(e0, es, t) && !e.IsBash() && !e.IsRead()
    ensures Describes(e0, es + [e], t)
  {
    DescribesOther(e0, es, t, e);
    forall p: string, s: nat
      ensures Reader(t, p, s) <==> HasRead(es + [e], p, s)
    {
      SnocRead(es, e, p, s);
    }
  }

  function AfterBash(t: Tables, e: Event, now: int): Tables {
    var epoch := e.EpochIn(now);
    var t' := if e.IsPass() then t.(passes := t.passes + [(e.step, epoch)]) else t;
    if e.obs.meta.command != "" then t'.(last := t'.last[(epoch, e.obs.meta.command) := e.step]) else t'
  }

  lemma DescribesBash(e0: int, es: seq<Event>, t: Tables, e: Event)
    requires Describes(e0, es, t) && e.IsBash()
    ensures Describes(e0, es + [e], AfterBash(t, e, EpochAt(e0, es, |es|)))
  {
    var es' := es + [e];
    var t' := AfterBash(t, e, EpochAt(e0, es, |es|));
    var now := (e.EpochIn(EpochAt(e0, es, |es|)), e.obs.meta.command);
    forall p: string, s: nat
      ensures Reader(t', p, s) <==> HasRead(es', p, s)
    {
      SnocRead(es, e, p, s);
      assert Reader(t, p, s) <==> HasRead(es, p, s);
    }
    forall s: nat, epoch: int
      ensures (s, epoch) in t'.passes <==> HasPass(e0, es', s, epoch)
    {
      SnocPass(e0, es, e, s, epoch);
    }
    forall key | key in t'.last
      ensures LastRunIn(e0, es', key, t'.last[key])
    {
      SnocRun(e0, es, e, 0, key);
      if now.1 != "" && key == now {
        assert LastRun(e0, es', |es|, key);
      } else {
        KeepsLastRun(e0, es, e, key, t.last[key]);
      }
    }
    forall key | HasRun(e0, es', key)
      ensures key in t'.last
    {
      SnocRun(e0, es, e, 0, key);
      OlderRun(e0, es, e, key);
    }
  }

  lemma RunsRepeat(e0: int, es: seq<Event>, i: nat, j: nat, key: Key)
    requires RunAt(e0, es, i, key) && RunAt(e0, es, j, key) && i < j
    ensures MadeSuperseded(e0, es, es[i].step)
  {
    assert Repeats(e0, es, i, j);
  }

  /** Superseding the last run of a command is enough: the earlier ones are superseded already. */
  lemma LastRunIsEnough(e0: int, es: seq<Event>, t: Tables, e: Event, s: nat)
    requires Describes(e0, es, t) && e.IsBash()
    ensures var key := (e.EpochIn(EpochAt(e0, es, |es|)), e.obs.meta.command);
      MadeSuperseded(e0, es + [e], s) <==> MadeSuperseded(e0, es, s) || (key.1 != "" && key in t.last && s == t.last[key])
  {
    var key := (e.EpochIn(EpochAt(e0, es, |es|)), e.obs.meta.command);
    SupersededGrows(e0, es, e, s);
    if NewlySuperseded(e0, es, e, s) {
      var i: nat :| RunAt(e0, es, i, key) && es[i].step == s;
      assert HasRun(e0, es, key) && LastRunIn(e0, es, key, t.last[key]);
      var l: nat :| LastRun(e0, es, l, key) && es[l].step == t.last[key];
      if i < l { RunsRepeat(e0, es, i, l, key); }
    }
    if key.1 != "" && key in t.last && s == t.last[key] {
      assert LastRunIn(e0, es, key, t.last[key]);
      var l: nat :| LastRun(e0, es, l, key) && es[l].step == t.last[key];
      assert RunAt(e0, es, l, key);
    }
  }

  ghost predicate OldPass(t: Tables, s: nat, now: int) {
    exists epoch: int :: (s, epoch) in t.passes && epoch <= now
  }

  /** What a write makes stale can be read off the tables. */
  lemma StaleByTables(e0: int, es: seq<Event>, t: Tables, e: Event, s: nat)
    requires Describes(e0, es, t) && e.IsWrite()
    ensures NewlyStale(e0, es, e, s) <==> Reader(t, e.obs.meta.path, s) || OldPass(t, s, EpochAt(e0, es, |es|))
  {
    var now := EpochAt(e0, es, |es|);
    if NewlyStale(e0, es, e, s) {
      var i: nat :| ReadAt(es, i, e.obs.meta.path, s)
        || (i < |es| && PassAt(e0, es, i, s, EpochOf(e0, es, i)) && EpochOf(e0, es, i) <= now);
      if ReadAt(es, i, e.obs.meta.path, s) {
        assert HasRead(es, e.obs.meta.path, s);
      } else {
        assert HasPass(e0, es, s, EpochOf(e0, es, i));
      }
    }
    if Reader(t, e.obs.meta.path, s) {
      assert HasRead(es, e.obs.meta.path, s);
    }
    if OldPass(t, s, now) {
      var epoch: int :| (s, epoch) in t.passes && epoch <= now;
      assert HasPass(e0, es, s, epoch);
      var i: nat :| PassAt(e0, es, i, s, epoch);
      assert PassAt(e0, es, i, s, EpochOf(e0, es, i));
    }
  }

  // ---- What the marks mean ----

  /** No passed verification recorded an epoch the tracker has not reached. */
  ghost predicate NotAhead(e0: int, es: seq<Event>) {
    forall i: nat {:trigger EpochOf(e0, es, i)} :: i < |es| && es[i].IsPass() ==> EpochOf(e0, es, i) <= EpochAt(e0, es, i)
  }

  /** The turn read a path that was written later, or passed a verification and something was written later. */
  ghost predicate PlainlyStale(es: seq<Event>, s: nat) {
    exists i: nat, j: nat :: (ReadThenWritten(es, i, j) || PassedThenWritten(es, i, j)) && es[i].step == s
  }

  lemma {:induction false} WritesGrow(es: seq<Event>, i: nat, j: nat)
    requires i <= j <= |es|
    ensures Writes(es[..i]) <= Writes(es[..j])
    ensures Writes(es[..i]) == Writes(es[..j]) <==> forall k :: i <= k < j ==> !es[k].IsWrite()
    decreases j - i
  {
    if i < j {
      WritesGrow(es, i, j - 1);
      assert es[..j][..j - 1] == es[..j - 1];
    }
  }

  /** The epochs drop out: a turn is stale exactly when what it observed was changed later. */
  lemma StaleMeans(e0: int, es: seq<Event>, s: nat)
    ensures MadeStale(e0, es, s) ==> PlainlyStale(es, s)
    ensures NotAhead(e0, es) ==> (MadeStale(e0, es, s) <==> PlainlyStale(es, s))
  {
    if NotAhead(e0, es) && PlainlyStale(es, s) {
      var i: nat, j: nat :| (ReadThenWritten(es, i, j) || PassedThenWritten(es, i, j)) && es[i].step == s;
      WritesGrow(es, i, j);
      assert EpochOf(e0, es, i) <= EpochAt(e0, es, i) || !es[i].IsPass();
      assert Invalidates(e0, es, i, j);
    }
  }

  /** `b` created or updated the file that `a` read, or any file where `a` is a verification that passed. */
  ghost predicate ChangedLater(a: Observation, b: Observation) {
    && a.success && b.success && b.tool == "write_file" && (b.meta.write == Created || b.meta.write == Updated)
    && ((a.tool == "read_file" && a.meta.path == b.meta.path != "")
        || (a.tool == "bash" && a.meta.exitCode == Some(0) && a.meta.verification))
  }

  /** Read before a write that changed the same file, or a verification that passed before any such write. */
  lemma StaleByFields(es: seq<Event>, s: nat)
    ensures PlainlyStale(es, s) <==>
            exists i: nat, j: nat :: i < j < |es| && es[i].step == s && ChangedLater(es[i].obs, es[j].obs)
  {
    if PlainlyStale(es, s) {
      var i: nat, j: nat :| (ReadThenWritten(es, i, j) || PassedThenWritten(es, i, j)) && es[i].step == s;
      assert ChangedLater(es[i].obs, es[j].obs);
    }
    if i: nat, j: nat :| i < j < |es| && es[i].step == s && ChangedLater(es[i].obs, es[j].obs) {
      assert ReadThenWritten(es, i, j) || PassedThenWritten(es, i, j);
    }
  }

  // ---- Repeated refreshes ----

  function EpochAfter(e0: int, runs: seq<seq<Event>>): int {
    if runs == [] then e0 else EpochAfter(e0, runs[..|runs| - 1]) + Writes(runs[|runs| - 1])
  }

  /** What a sequence of passes makes stale, if the tracker starts at `e0`. */
  ghost predicate StaleInRuns(e0: int, runs: seq<seq<Event>>, s: nat) {
    runs != [] && (StaleInRuns(e0, runs[..|runs| - 1], s) || MadeStale(EpochAfter(e0, runs[..|runs| - 1]), runs[|runs| - 1], s))
  }

  ghost predicate SupersededInRuns(e0: int, runs: seq<seq<Event>>, s: nat) {
    runs != [] && (SupersededInRuns(e0, runs[..|runs| - 1], s) || MadeSuperseded(EpochAfter(e0, runs[..|runs| - 1]), runs[|runs| - 1], s))
  }

  function Joined(batches: seq<seq<Item>>): seq<Item> {
    if batches == [] then [] else Joined(batches[..|batches| - 1]) + batches[|batches| - 1]
  }

  /** What each pass sees if before each one a batch of items was added. */
  function RunsOf(items: seq<Item>, batches: seq<seq<Item>>): seq<seq<Event>> {
    if batches == [] then [] else RunsOf(items, batches[..|batches| - 1]) + [Events(items + Joined(batches))]
  }

  lemma {:induction false} EventsOfJoin(a: seq<Item>, b: seq<Item>)
    ensures Events(a) <= Events(a + b)
  {
    if b == [] {
      assert a + b == a;
    } else {
      assert (a + b)[..|a + b| - 1] == a + b[..|b| - 1];
      EventsOfJoin(a, b[..|b| - 1]);
    }
  }

  lemma {:induction false} RunsGrow(items: seq<Item>, batches: seq<seq<Item>>)
    ensures |RunsOf(items, batches)| == |batches| && Growing(RunsOf(items, batches))
    ensures batches != [] ==> RunsOf(items, batches)[|batches| - 1] == Events(items + Joined(batches))
  {
    if batches != [] {
      var n := |batches| - 1;
      var front, shown := RunsOf(items, batches[..n]), items + Joined(batches[..n]);
      assert items + Joined(batches) == shown + batches[n];
      assert RunsOf(items, batches) == front + [Events(items + Joined(batches))];
      RunsGrow(items, batches[..n]);
      EventsOfJoin(shown, batches[n]);
      hide RunsOf, Joined, Events;
      GrowsFurther(front, Events(shown + batches[n]));
    }
  }

  lemma GrowsFurther(runs: seq<seq<Event>>, es: seq<Event>)
    requires Growing(runs) && (runs != [] ==> runs[|runs| - 1] <= es)
    ensures Growing(runs + [es])
  {
  }

  /** The context only grew from refresh to refresh. */
  ghost predicate Growing(runs: seq<seq<Event>>) {
    forall i :: 0 <= i < |runs| - 1 ==> runs[i] <= runs[i + 1]
  }

  lemma {:induction false} EpochsOnlyGrow(e0: int, runs: seq<seq<Event>>)
    ensures e0 <= EpochAfter(e0, runs)
  {
    if runs != [] { EpochsOnlyGrow(e0, runs[..|runs| - 1]); }
  }

  lemma LaterTrackerNotAhead(e0: int, e1: int, es: seq<Event>)
    requires NotAhead(e0, es) && e0 <= e1
    ensures NotAhead(e1, es)
  {
    forall i: nat | i < |es| && es[i].IsPass()
      ensures EpochOf(e1, es, i) <= EpochAt(e1, es, i)
    {
      assert EpochOf(e0, es, i) <= EpochAt(e0, es, i);
    }
  }

  lemma PrefixNotAhead(e0: int, a: seq<Event>, b: seq<Event>)
    requires NotAhead(e0, b) && a <= b
    ensures NotAhead(e0, a)
    ensures forall s: nat :: PlainlyStale(a, s) ==> PlainlyStale(b, s)
  {
    forall i: nat | i < |a| && a[i].IsPass()
      ensures EpochOf(e0, a, i) <= EpochAt(e0, a, i)
    {
      assert a[..i] == b[..i];
      assert EpochOf(e0, b, i) <= EpochAt(e0, b, i);
    }
    forall s: nat | PlainlyStale(a, s)
      ensures PlainlyStale(b, s)
    {
      var i: nat, j: nat :| (ReadThenWritten(a, i, j) || PassedThenWritten(a, i, j)) && a[i].step == s;
      assert (ReadThenWritten(b, i, j) || PassedThenWritten(b, i, j)) && b[i].step == s;
    }
  }

  /** However often the tracker was refreshed while the context grew, the stale turns are the plainly stale ones. */
  lemma {:induction false} StaleAfterAnyRuns(e0: int, runs: seq<seq<Event>>, s: nat)
    requires runs != [] && Growing(runs) && NotAhead(e0, runs[|runs| - 1])
    ensures StaleInRuns(e0, runs, s) <==> PlainlyStale(runs[|runs| - 1], s)
  {
    var front, last := runs[..|runs| - 1], runs[|runs| - 1];
    EpochsOnlyGrow(e0, front);
    LaterTrackerNotAhead(e0, EpochAfter(e0, front), last);
    StaleMeans(EpochAfter(e0, front), last, s);
    if front != [] {
      assert front[|front| - 1] == runs[|runs| - 2] <= runs[|runs| - 2 + 1];
      PrefixNotAhead(e0, front[|front| - 1], last);
      StaleAfterAnyRuns(e0, front, s);
    }
  }

  /** Every command recorded the number of writes before it. */
  ghost predicate RecordsWrites(es: seq<Event>) {
    forall i: nat {:trigger Writes(es[..i])} :: i < |es| && es[i].IsBash() ==> es[i].obs.meta.codeEpoch == Writes(es[..i])
  }

  /** The same command ran again before any file was changed. */
  ghost predicate RepeatedAtOnce(es: seq<Event>, i: nat, j: nat) {
    && i < j < |es| && es[i].obs.tool == "bash" && es[j].obs.tool == "bash"
    && es[i].obs.meta.command == es[j].obs.meta.command != ""
    && forall k :: i <= k < j ==>
         !(es[k].obs.tool == "write_file" && es[k].obs.success
           && (es[k].obs.meta.write == Created || es[k].obs.meta.write == Updated))
  }

  /** On a fresh tracker exactly the runs that were repeated within one write epoch are superseded. */
  lemma FreshSupersession(es: seq<Event>, s: nat)
    requires RecordsWrites(es)
    ensures MadeSuperseded(0, es, s) <==> exists i: nat, j: nat :: RepeatedAtOnce(es, i, j) && es[i].step == s
  {
    if MadeSuperseded(0, es, s) {
      var i: nat, j: nat :| Repeats(0, es, i, j) && es[i].step == s;
      RepeatsAgree(es, i, j);
    }
    if i: nat, j: nat :| RepeatedAtOnce(es, i, j) && es[i].step == s {
      RepeatsAgree(es, i, j);
    }
  }

  lemma RepeatsAgree(es: seq<Event>, i: nat, j: nat)
    requires RecordsWrites(es)
    ensures Repeats(0, es, i, j) <==> RepeatedAtOnce(es, i, j)
  {
    if i < j < |es| && es[i].IsBash() && es[j].IsBash() {
      assert EpochOf(0, es, i) == Writes(es[..i]) && EpochOf(0, es, j) == Writes(es[..j]);
      WritesGrow(es, i, j);
    }
  }

  /** A command run before the first write is the same as one run after the last. */
  ghost predicate AcrossAllWrites(es: seq<Event>, i: nat, j: nat) {
    && i < j < |es| && es[i].IsBash() && es[j].IsBash() && es[i].obs.meta.command == es[j].obs.meta.command != ""
    && (forall k :: 0 <= k < i ==> !es[k].IsWrite()) && (forall k :: j <= k < |es| ==> !es[k].IsWrite())
  }

  /** `n` passes over the same events. */
  function Again(es: seq<Event>, n: nat): (runs: seq<seq<Event>>)
    ensures |runs| == n && forall i :: 0 <= i < n ==> runs[i] == es
  {
    seq(n, i => es)
  }

  lemma {:induction false} EpochAfterAgain(e0: int, es: seq<Event>, n: nat)
    ensures EpochAfter(e0, Again(es, n)) == e0 + n * Writes(es)
  {
    if n > 0 {
      assert Again(es, n)[..n - 1] == Again(es, n - 1);
      EpochAfterAgain(e0, es, n - 1);
    }
  }

  /** What the pass after `n` others finds repeated: only the second pass finds something new. */
  lemma RepeatsAfter(es: seq<Event>, n: nat, i: nat, j: nat)
    requires RecordsWrites(es)
    ensures Repeats(n * Writes(es), es, i, j) <==> RepeatedAtOnce(es, i, j) || (n == 1 && AcrossAllWrites(es, i, j))
  {
    var w := Writes(es);
    if i < j < |es| && es[i].IsBash() && es[j].IsBash() {
      assert es[..|es|] == es && Writes(es[..0]) == 0;
      assert es[i].obs.meta.codeEpoch == Writes(es[..i]) && es[j].obs.meta.codeEpoch == Writes(es[..j]);
      WritesGrow(es, 0, i);
      WritesGrow(es, i, j);
      WritesGrow(es, j, |es|);
      Multiples(n, w);
    }
  }

  lemma Multiples(n: nat, w: nat)
    ensures n == 0 ==> n * w == 0
    ensures n == 1 ==> n * w == w
    ensures n >= 2 && w > 0 ==> n * w > w
    ensures w == 0 ==> n * w == 0
  {
    if n >= 2 { assert n * w == w + (n - 1) * w; }
  }

  lemma PassSupersedes(es: seq<Event>, n: nat, s: nat)
    requires RecordsWrites(es)
    ensures MadeSuperseded(n * Writes(es), es, s) <==>
            exists i: nat, j: nat :: (RepeatedAtOnce(es, i, j) || (n == 1 && AcrossAllWrites(es, i, j))) && es[i].step == s
  {
    if MadeSuperseded(n * Writes(es), es, s) {
      var i: nat, j: nat :| Repeats(n * Writes(es), es, i, j) && es[i].step == s;
      RepeatsAfter(es, n, i, j);
    }
    if i: nat, j: nat :| (RepeatedAtOnce(es, i, j) || (n == 1 && AcrossAllWrites(es, i, j))) && es[i].step == s {
      RepeatsAfter(es, n, i, j);
    }
  }

  /**
   What `n` refreshes of the same context supersede: after the first the runs repeated within one write epoch, after
   the second also those before all writes repeated after all writes, and nothing more after any later one.
   */
  lemma {:induction false} RefreshesSupersede(es: seq<Event>, n: nat, s: nat)
    requires RecordsWrites(es)
    ensures SupersededInRuns(0, Again(es, n), s) <==>
            exists i: nat, j: nat :: ((n >= 1 && RepeatedAtOnce(es, i, j)) || (n >= 2 && AcrossAllWrites(es, i, j))) && es[i].step == s
  {
    if n > 0 {
      var m: nat := n - 1;
      assert Again(es, n)[..n - 1] == Again(es, m);
      RefreshesSupersede(es, m, s);
      EpochAfterAgain(0, es, m);
      PassSupersedes(es, m, s);
    }
  }

  const BARE := Metadata("", NoWrite, "", 0, None, false, None, None, None, None)
  const FIRST_RUN := Event(1, Observation("a", "bash", true, "", Plain(""), BARE.(command := "make")))
  const SOME_WRITE := Event(2, Observation("b", "write_file", true, "", Plain(""), BARE.(path := "f", write := Created)))
  const SECOND_RUN := Event(3, Observation("c", "bash", true, "", Plain(""), BARE.(command := "make", codeEpoch := 1)))

  /** The epoch is never reset, so a second refresh of the same context may mark a run the first did not. */
  lemma SupersessionIsNotStable()
    ensures var es := [FIRST_RUN, SOME_WRITE, SECOND_RUN];
      !MadeSuperseded(0, es, 1) && MadeSuperseded(EpochAfter(0, Again(es, 1)), es, 1)
  {
    var es := [FIRST_RUN, SOME_WRITE, SECOND_RUN];
    assert es[..0] == [] && es[..1] == [FIRST_RUN] && es[..2] == [FIRST_RUN, SOME_WRITE];
    assert es[..3] == es;
    assert Writes([FIRST_RUN]) == 0;
    assert [FIRST_RUN, SOME_WRITE][..1] == [FIRST_RUN];
    assert Writes([FIRST_RUN, SOME_WRITE]) == 1;
    assert es[..|es| - 1] == [FIRST_RUN, SOME_WRITE];
    assert Writes(es) == 1;
    EpochAfterAgain(0, es, 1);
    assert Repeats(1, es, 0, 2);
  }

  // ---- The tracker ----

  function MarkTurn(t: Turn, stale: set<nat>, superseded: set<nat>): Turn {
    if t.step in stale then t.(status := StaleTurn)
    else if t.step in superseded then t.(status := SupersededTurn)
    else t
  }

  function MarkItem(i: Item, stale: set<nat>, superseded: set<nat>): Item {
    match i
    case Note(_, _, _) => i
    case ToolTurn(t) => ToolTurn(MarkTurn(t, stale, superseded))
  }

  function Marked(items: seq<Item>, stale: set<nat>, superseded: set<nat>): (r: seq<Item>)
    ensures |r| == |items| && forall i :: 0 <= i < |items| ==> r[i] == MarkItem(items[i], stale, superseded)
  {
    seq(|items|, i requires 0 <= i < |items| => MarkItem(items[i], stale, superseded))
  }

  /** Marking changes no results. */
  lemma {:induction false} SameEvents(a: seq<Item>, b: seq<Item>)
    requires |a| == |b| && forall i :: 0 <= i < |a| ==> ItemEvents(a[i]) == ItemEvents(b[i])
    ensures Events(a) == Events(b)
  {
    if a != [] { SameEvents(a[..|a| - 1], b[..|b| - 1]); }
  }

  lemma KeepsEvents(items: seq<Item>, more: seq<Item>, stale: set<nat>, superseded: set<nat>)
    ensures Events(Marked(items, stale, superseded) + more) == Events(items + more)
  {
    hide TurnEvents;
    SameEvents(Marked(items, stale, superseded) + more, items + more);
  }

  lemma MarkedKeepsEvents(items: seq<Item>, stale: set<nat>, superseded: set<nat>)
    ensures Events(Marked(items, stale, superseded)) == Events(items)
  {
    hide TurnEvents;
    SameEvents(Marked(items, stale, superseded), items);
  }

  /** Marking again with more marks is marking once. */
  lemma MarkedAgain(items: seq<Item>, more: seq<Item>, a: set<nat>, b: set<nat>, a': set<nat>, b': set<nat>)
    requires a <= a' && b <= b'
    ensures Marked(Marked(items, a, b) + more, a', b') == Marked(items + more, a', b')
  {
    var twice, once := Marked(Marked(items, a, b) + more, a', b'), Marked(items + more, a', b');
    forall i | 0 <= i < |once|
      ensures twice[i] == once[i]
    {
      if i < |items| { MarkTwice(items[i], a, b, a', b'); }
    }
  }

  lemma MarkTwice(item: Item, a: set<nat>, b: set<nat>, a': set<nat>, b': set<nat>)
    requires a <= a' && b <= b'
    ensures MarkItem(MarkItem(item, a, b), a', b') == MarkItem(item, a', b')
  {
  }

  /** Passes over these events lead from the epoch and marks `e0`, `stale0`, `superseded0` to the others. */
  ghost predicate Follows(e0: int, runs: seq<seq<Event>>, stale0: set<nat>, superseded0: set<nat>,
                          epoch: int, stale: set<nat>, superseded: set<nat>) {
    && epoch == EpochAfter(e0, runs)
    && (forall s: nat :: s in stale <==> s in stale0 || StaleInRuns(e0, runs, s))
    && (forall s: nat :: s in superseded <==> s in superseded0 || SupersededInRuns(e0, runs, s))
  }

  lemma NothingFollows(e0: int, stale: set<nat>, superseded: set<nat>)
    ensures Follows(e0, [], stale, superseded, e0, stale, superseded)
  {
  }

  class StaleTracker {
    var codeEpoch: int
    var stale: set<nat>
    var superseded: set<nat>

    constructor ()
      ensures codeEpoch == 0 && stale == {} && superseded == {}
    {
      codeEpoch, stale, superseded := 0, {}, {};
    }

    /** The tracker after the events, which began at epoch `e0` with these sets. */
    ghost predicate Tracks(e0: int, es: seq<Event>, stale0: set<nat>, superseded0: set<nat>)
      reads this
    {
      && codeEpoch == EpochAt(e0, es, |es|)
      && (forall s: nat :: s in stale <==> s in stale0 || MadeStale(e0, es, s))
      && (forall s: nat :: s in superseded <==> s in superseded0 || MadeSuperseded(e0, es, s))
    }

    method AddOldPasses(passes: seq<(nat, int)>)
      modifies this`stale
      ensures forall s: nat :: s in stale <==> s in old(stale) || exists epoch: int :: (s, epoch) in passes && epoch < codeEpoch
    {
      for i := 0 to |passes|
        invariant forall s: nat :: s in stale <==> s in old(stale) || exists epoch: int :: (s, epoch) in passes[..i] && epoch < codeEpoch
      {
        assert passes[..i + 1] == passes[..i] + [passes[i]];
        if passes[i].1 < codeEpoch { stale := stale + {passes[i].0}; }
      }
      assert passes[..|passes|] == passes;
    }

    method ObserveWrite(e: Event, t: Tables,
                        ghost e0: int, ghost es: seq<Event>, ghost stale0: set<nat>, ghost superseded0: set<nat>)
      requires Tracks(e0, es, stale0, superseded0) && Describes(e0, es, t) && e.IsWrite()
      modifies this`codeEpoch, this`stale
      ensures Tracks(e0, es + [e], stale0, superseded0) && Describes(e0, es + [e], t)
    {
      codeEpoch := codeEpoch + 1;
      var path := e.obs.meta.path;
      if path != "" && path in t.readers { stale := stale + set s | s in t.readers[path]; }
      AddOldPasses(t.passes);
      SnocLast(e0, es, e);
      DescribesNothing(e0, es, t, e);
      forall s: nat
        ensures s in stale <==> s in stale0 || MadeStale(e0, es + [e], s)
      {
        StaleGrows(e0, es, e, s);
        StaleByTables(e0, es, t, e, s);
        NoEmptyPath(e0, es, t, s);
      }
      forall s: nat
        ensures s in superseded <==> s in superseded0 || MadeSuperseded(e0, es + [e], s)
      {
        SupersededGrows(e0, es, e, s);
      }
    }

    lemma NoEmptyPath(e0: int, es: seq<Event>, t: Tables, s: nat)
      requires Describes(e0, es, t)
      ensures !Reader(t, "", s)
    {
      assert Reader(t, "", s) <==> HasRead(es, "", s);
    }

    method ObserveBash(e: Event, t: Tables,
                       ghost e0: int, ghost es: seq<Event>, ghost stale0: set<nat>, ghost superseded0: set<nat>)
      returns (t': Tables)
      requires Tracks(e0, es, stale0, superseded0) && Describes(e0, es, t) && e.IsBash()
      modifies this`superseded
      ensures Tracks(e0, es + [e], stale0, superseded0) && Describes(e0, es + [e], t')
    {
      var epoch, command := e.EpochIn(codeEpoch), e.obs.meta.command;
      t' := t;
      if e.IsPass() { t' := t'.(passes := t'.passes + [(e.step, epoch)]); }
      if command != "" {
        if (epoch, command) in t'.last { superseded := superseded + {t'.last[(epoch, command)]}; }
        t' := t'.(last := t'.last[(epoch, command) := e.step]);
      }
      SnocLast(e0, es, e);
      DescribesBash(e0, es, t, e);
      forall s: nat
        ensures s in stale <==> s in stale0 || MadeStale(e0, es + [e], s)
      {
        StaleGrows(e0, es, e, s);
      }
      forall s: nat
        ensures s in superseded <==> s in superseded0 || MadeSuperseded(e0, es + [e], s)
      {
        LastRunIsEnough(e0, es, t, e, s);
      }
    }

    method Observe(e: Event, t: Tables,
                   ghost e0: int, ghost es: seq<Event>, ghost stale0: set<nat>, ghost superseded0: set<nat>)
      returns (t': Tables)
      requires Tracks(e0, es, stale0, superseded0) && Describes(e0, es, t)
      modifies this
      ensures Tracks(e0, es + [e], stale0, superseded0) && Describes(e0, es + [e], t')
    {
      t' := t;
      if e.IsRead() {
        var path := e.obs.meta.path;
        if path != "" { t' := WithRead(t, path, e.step); }
        DescribesRead(e0, es, t, e);
        StaysTracked(e, e0, es, stale0, superseded0);
      } else if e.IsWrite() {
        ObserveWrite(e, t, e0, es, stale0, superseded0);
      } else if e.IsBash() {
        t' := ObserveBash(e, t, e0, es, stale0, superseded0);
      } else {
        DescribesNothing(e0, es, t, e);
        StaysTracked(e, e0, es, stale0, superseded0);
      }
    }

    lemma StaysTracked(e: Event, e0: int, es: seq<Event>, stale0: set<nat>, superseded0: set<nat>)
      requires Tracks(e0, es, stale0, superseded0) && !e.IsWrite() && !e.IsBash()
      ensures Tracks(e0, es + [e], stale0, superseded0)
    {
      SnocLast(e0, es, e);
      forall s: nat
        ensures MadeStale(e0, es + [e], s) <==> MadeStale(e0, es, s)
        ensures MadeSuperseded(e0, es + [e], s) <==> MadeSuperseded(e0, es, s)
      {
        StaleGrows(e0, es, e, s);
        SupersededGrows(e0, es, e, s);
      }
    }

    method ObserveTurn(turn: Turn, t: Tables,
                       ghost e0: int, ghost es: seq<Event>, ghost stale0: set<nat>, ghost superseded0: set<nat>)
      returns (t': Tables)
      requires Tracks(e0, es, stale0, superseded0) && Describes(e0, es, t)
      modifies this
      ensures Tracks(e0, es + TurnEvents(turn.step, turn.replies), stale0, superseded0)
      ensures Describes(e0, es + TurnEvents(turn.step, turn.replies), t')
    {
      hide MadeStale, MadeSuperseded, Describes;
      t' := t;
      assert es + TurnEvents(turn.step, turn.replies[..0]) == es;
      for j := 0 to |turn.replies|
        invariant Tracks(e0, es + TurnEvents(turn.step, turn.replies[..j]), stale0, superseded0)
        invariant Describes(e0, es + TurnEvents(turn.step, turn.replies[..j]), t')
      {
        ghost var seen := es + TurnEvents(turn.step, turn.replies[..j]);
        assert turn.replies[..j + 1][..j] == turn.replies[..j];
        match turn.replies[j].content {
          case Parsed(o) =>
            t' := Observe(Event(turn.step, o), t', e0, seen, stale0, superseded0);
            assert es + TurnEvents(turn.step, turn.replies[..j + 1]) == seen + [Event(turn.step, o)];
          case Raw(_) =>
            assert es + TurnEvents(turn.step, turn.replies[..j + 1]) == seen;
        }
      }
      assert turn.replies[..|turn.replies|] == turn.replies;
    }

    /** One pass over all tool results, and the statuses of the turns. */
    method Refresh(buffer: ContextBuffer)
      requires buffer.Valid()
      modifies this, buffer`items
      ensures Tracks(old(codeEpoch), Events(old(buffer.items)), old(stale), old(superseded))
      ensures buffer.items == Marked(old(buffer.items), stale, superseded)
      ensures buffer.Valid()
    {
      hide MadeStale, MadeSuperseded, Describes, Finished;
      var items := buffer.items;
      var t := Tables(map[], map[], []);
      StartsTracked();
      for i := 0 to |items|
        invariant Tracks(old(codeEpoch), Events(items[..i]), old(stale), old(superseded))
        invariant Describes(old(codeEpoch), Events(items[..i]), t)
        invariant buffer.items == items
      {
        assert items[..i + 1][..i] == items[..i];
        match items[i] {
          case ToolTurn(turn) =>
            t := ObserveTurn(turn, t, old(codeEpoch), Events(items[..i]), old(stale), old(superseded));
          case Note(_, _, _) =>
            assert Events(items[..i + 1]) == Events(items[..i]);
        }
      }
      assert items[..|items|] == items;
      MarkItems(buffer);
    }

    lemma FollowedFurther(e0: int, runs: seq<seq<Event>>, es: seq<Event>, stale0: set<nat>, superseded0: set<nat>,
                          epoch: int, a: set<nat>, b: set<nat>)
      requires Follows(e0, runs, stale0, superseded0, epoch, a, b) && Tracks(epoch, es, a, b)
      ensures Follows(e0, runs + [es], stale0, superseded0, codeEpoch, stale, superseded)
    {
      var longer := runs + [es];
      assert longer[..|longer| - 1] == runs && es[..|es|] == es;
    }

    lemma MarksGrow(e0: int, es: seq<Event>, stale0: set<nat>, superseded0: set<nat>)
      requires Tracks(e0, es, stale0, superseded0)
      ensures stale0 <= stale && superseded0 <= superseded
    {
    }

    /** One refresh after items were added to `shown`, which may carry the statuses of the marks so far. */
    method RefreshWith(buffer: ContextBuffer, more: seq<Item>, ghost shown: seq<Item>)
      requires buffer.Valid() && AllFinished(more)
      requires buffer.items == shown || buffer.items == Marked(shown, stale, superseded)
      modifies this, buffer`items
      ensures buffer.Valid() && Tracks(old(codeEpoch), Events(shown + more), old(stale), old(superseded))
      ensures buffer.items == Marked(shown + more, stale, superseded)
    {
      hide Finished, Tracks, Marked, Events;
      ghost var a, b := stale, superseded;
      if buffer.items != shown { KeepsEvents(shown, more, a, b); }
      buffer.items := buffer.items + more;
      Refresh(buffer);
      MarksGrow(old(codeEpoch), Events(shown + more), a, b);
      if old(buffer.items) != shown { MarkedAgain(shown, more, a, b, stale, superseded); }
    }

    /**
     The refreshes of one segment, in which only items are added: the marks are those of all passes, the statuses those
     of the marks, and with recorded epochs not ahead of the tracker exactly the plainly stale turns are newly marked.
     */
    method RefreshEach(buffer: ContextBuffer, batches: seq<seq<Item>>)
      requires buffer.Valid() && forall batch :: batch in batches ==> AllFinished(batch)
      modifies this, buffer`items
      ensures buffer.Valid()
      ensures Follows(old(codeEpoch), RunsOf(old(buffer.items), batches), old(stale), old(superseded), codeEpoch, stale, superseded)
      ensures batches != [] ==> buffer.items == Marked(old(buffer.items) + Joined(batches), stale, superseded)
      ensures batches != [] && NotAhead(old(codeEpoch), Events(buffer.items)) ==>
                forall s: nat :: s in stale <==> s in old(stale) || PlainlyStale(Events(buffer.items), s)
    {
      hide Finished, Tracks, Marked, Events, NotAhead, PlainlyStale, EpochAfter, StaleInRuns, SupersededInRuns, MadeStale, MadeSuperseded;
      var items := buffer.items;
      assert items + Joined(batches[..0]) == items;
      NothingFollows(codeEpoch, stale, superseded);
      for i := 0 to |batches|
        invariant buffer.Valid()
        invariant Follows(old(codeEpoch), RunsOf(items, batches[..i]), old(stale), old(superseded), codeEpoch, stale, superseded)
        invariant buffer.items == if i == 0 then items else Marked(items + Joined(batches[..i]), stale, superseded)
      {
        ghost var epoch, a, b := codeEpoch, stale, superseded;
        assert batches[..i + 1][..i] == batches[..i];
        ghost var shown := items + Joined(batches[..i]);
        assert shown + batches[i] == items + Joined(batches[..i + 1]);
        RefreshWith(buffer, batches[i], shown);
        FollowedFurther(old(codeEpoch), RunsOf(items, batches[..i]), Events(shown + batches[i]), old(stale), old(superseded), epoch, a, b);
      }
      assert batches[..|batches|] == batches;
      if batches != [] {
        MarkedKeepsEvents(items + Joined(batches), stale, superseded);
        RunsGrow(items, batches);
        if NotAhead(old(codeEpoch), Events(buffer.items)) {
          forall s: nat
            ensures s in stale <==> s in old(stale) || PlainlyStale(Events(buffer.items), s)
          {
            StaleAfterAnyRuns(old(codeEpoch), RunsOf(items, batches), s);
          }
        }
      }
    }

    lemma StartsTracked()
      ensures Tracks(codeEpoch, [], stale, superseded) && Describes(codeEpoch, [], Tables(map[], map[], []))
    {
    }

    method MarkItems(buffer: ContextBuffer)
      requires buffer.Valid()
      modifies buffer`items
      ensures buffer.items == Marked(old(buffer.items), stale, superseded) && buffer.Valid()
    {
      var items := buffer.items;
      for i := 0 to |items|
        invariant |buffer.items| == |items|
        invariant forall j :: 0 <= j < |items| ==>
          buffer.items[j] == if j < i then MarkItem(items[j], stale, superseded) else items[j]
      {
        buffer.items := buffer.items[i := MarkItem(items[i], stale, superseded)];
      }
      assert buffer.items == Marked(items, stale, superseded);
    }
  }
}
