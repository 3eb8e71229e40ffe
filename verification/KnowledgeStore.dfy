/** The knowledge records and the ledger of their uses. */
module KnowledgeStore {
  import opened Common

  datatype UseType = Retrieved | Exposed | Referenced | Helpful | Harmful | Neutral

  datatype Counters = Counters(retrieval: nat, exposure: nat, reference: nat, helpful: nat, harmful: nat)

  const NO_USES := Counters(0, 0, 0, 0, 0)

  function Applied(c: Counters, kind: UseType): Counters {
    match kind
    case Retrieved => c.(retrieval := c.retrieval + 1)
    case Exposed => c.(exposure := c.exposure + 1)
    case Referenced => c.(reference := c.reference + 1)
    case Helpful => c.(helpful := c.helpful + 1)
    case Harmful => c.(harmful := c.harmful + 1)
    case Neutral => c
  }

  datatype MemoryStatus = ActiveMemory | OtherMemory

  datatype MemoryRecord = MemoryRecord(project: string, status: MemoryStatus, counters: Counters)

  datatype SkillStatus = Draft | Validated | ActiveSkill | Deprecated | Retired

  /** A derivation key stands for the set of source memories it is made from. */
  datatype SkillRecord = SkillRecord(
    status: SkillStatus, sources: set<string>, successes: nat, failures: nat, tasks: seq<string>, repositories: seq<string>,
    episodes: seq<string>, sourceTasks: seq<string>, evidence: seq<string>, counters: Counters)

  /** One row of the ledger; a row is about a memory or about a skill. */
  datatype Use = Use(project: string, task: string, session: string, isMemory: bool, item: string, kind: UseType)

  predicate FullKey(u: Use) {
    u.project != "" && u.task != "" && u.session != ""
  }

  predicate SameKey(a: Use, b: Use) {
    a.project == b.project && a.task == b.task && a.session == b.session && a.item == b.item && a.kind == b.kind
  }

  /** No full key occurs twice. */
  ghost predicate NoTwins(uses: seq<Use>) {
    forall i, j :: 0 <= i < j < |uses| ==> !(FullKey(uses[j]) && SameKey(uses[i], uses[j]))
  }

  function Rows(uses: seq<Use>, isMemory: bool, item: string, kind: UseType): nat {
    if uses == [] then 0
    else
      var u := uses[|uses| - 1];
      Rows(uses[..|uses| - 1], isMemory, item, kind) + if u.isMemory == isMemory && u.item == item && u.kind == kind then 1 else 0
  }

  /** What the counters should be, counted in the ledger. */
  function Tally(uses: seq<Use>, isMemory: bool, item: string): Counters {
    Counters(Rows(uses, isMemory, item, Retrieved), Rows(uses, isMemory, item, Exposed), Rows(uses, isMemory, item, Referenced),
             Rows(uses, isMemory, item, Helpful), Rows(uses, isMemory, item, Harmful))
  }

  ghost predicate Unused(uses: seq<Use>, isMemory: bool, item: string) {
    forall u :: u in uses ==> !(u.isMemory == isMemory && u.item == item)
  }

  lemma TallyGrows(uses: seq<Use>, u: Use, isMemory: bool, item: string)
    ensures Tally(uses + [u], isMemory, item) ==
            if u.isMemory == isMemory && u.item == item then Applied(Tally(uses, isMemory, item), u.kind) else Tally(uses, isMemory, item)
  {
    assert (uses + [u])[..|uses|] == uses;
  }

  lemma {:induction false} UnusedTally(uses: seq<Use>, isMemory: bool, item: string)
    requires Unused(uses, isMemory, item)
    ensures Tally(uses, isMemory, item) == NO_USES
  {
    if uses != [] {
      var front, last := uses[..|uses| - 1], uses[|uses| - 1];
      assert uses == front + [last];
      UnusedTally(front, isMemory, item);
      TallyGrows(front, last, isMemory, item);
    }
  }

  /** Every memory counter equals the number of its ledger rows. */
  ghost predicate MemoriesConserved(memories: map<string, MemoryRecord>, uses: seq<Use>) {
    forall m :: m in memories ==> memories[m].counters == Tally(uses, true, m)
  }

  /** So does every skill counter, except that each reported failure counts as one more harmful use. */
  ghost predicate SkillsConserved(skills: map<string, SkillRecord>, uses: seq<Use>) {
    forall s :: s in skills ==>
      skills[s].counters == var t := Tally(uses, false, s); t.(harmful := t.harmful + skills[s].failures)
  }

  ghost predicate RowsKnown(memories: map<string, MemoryRecord>, skills: map<string, SkillRecord>, uses: seq<Use>) {
    forall u :: u in uses ==> if u.isMemory then u.item in memories else u.item in skills
  }

  lemma MemoryUseConserves(memories: map<string, MemoryRecord>, skills: map<string, SkillRecord>, uses: seq<Use>, u: Use)
    requires MemoriesConserved(memories, uses) && SkillsConserved(skills, uses) && u.isMemory && u.item in memories
    ensures var m := memories[u.item];
      MemoriesConserved(memories[u.item := m.(counters := Applied(m.counters, u.kind))], uses + [u])
    ensures SkillsConserved(skills, uses + [u])
  {
    forall m | m in memories
      ensures Tally(uses + [u], true, m) == if m == u.item then Applied(Tally(uses, true, m), u.kind) else Tally(uses, true, m)
    {
      TallyGrows(uses, u, true, m);
    }
    forall s | s in skills
      ensures Tally(uses + [u], false, s) == Tally(uses, false, s)
    {
      TallyGrows(uses, u, false, s);
    }
  }

  lemma SkillUseConserves(memories: map<string, MemoryRecord>, skills: map<string, SkillRecord>, uses: seq<Use>, u: Use)
    requires MemoriesConserved(memories, uses) && SkillsConserved(skills, uses) && !u.isMemory && u.item in skills
    ensures var s := skills[u.item];
      SkillsConserved(skills[u.item := s.(counters := Applied(s.counters, u.kind))], uses + [u])
    ensures MemoriesConserved(memories, uses + [u])
  {
    forall s | s in skills
      ensures Tally(uses + [u], false, s) == if s == u.item then Applied(Tally(uses, false, s), u.kind) else Tally(uses, false, s)
    {
      TallyGrows(uses, u, false, s);
    }
    forall m | m in memories
      ensures Tally(uses + [u], true, m) == Tally(uses, true, m)
    {
      TallyGrows(uses, u, true, m);
    }
  }

  /** The new record of a skill counts the uses of the old one, and its new failures as harmful. */
  predicate Balanced(id: string, skills: map<string, SkillRecord>, record: SkillRecord) {
    if id in skills then
      var was := skills[id];
      record.failures >= was.failures
      && record.counters == was.counters.(harmful := was.counters.harmful + (record.failures - was.failures))
    else record.counters == NO_USES && record.failures == 0
  }

  /** The counters of a skill equal its ledger rows exactly when no failure was reported of it. */
  lemma FailuresCountTwice(skills: map<string, SkillRecord>, uses: seq<Use>, s: string)
    requires SkillsConserved(skills, uses) && s in skills
    ensures skills[s].counters == Tally(uses, false, s) <==> skills[s].failures == 0
  {
  }

  /** One failure, reported once, whose row says Harmful: the counter is two. */
  lemma OneFailureCountsTwice(s: string, record: SkillRecord)
    requires record.counters == NO_USES.(harmful := 2) && record.failures == 1
    ensures var uses := [Use("p", "t", "s", false, s, Harmful)];
      SkillsConserved(map[s := record], uses) && record.counters.harmful == Rows(uses, false, s, Harmful) + 1
  {
    var none: seq<Use> := [];
    TallyGrows(none, Use("p", "t", "s", false, s, Harmful), false, s);
    assert none + [Use("p", "t", "s", false, s, Harmful)] == [Use("p", "t", "s", false, s, Harmful)];
  }

  datatype Written = Created | AlreadyThere | NotFound

  /** `UnknownId` stands for the error the source raises. */
  datatype Updated = Changed | Forbidden | UnknownId

  class Store {
    const frozen: bool
    var memories: map<string, MemoryRecord>
    var skills: map<string, SkillRecord>
    var uses: seq<Use>

    constructor (frozen: bool)
      ensures Conserved() && NoTwins(uses) && this.frozen == frozen && memories == map[] && skills == map[] && uses == []
    {
      this.frozen := frozen;
      memories, skills, uses := map[], map[], [];
    }

    ghost predicate Conserved()
      reads this
    {
      MemoriesConserved(memories, uses) && SkillsConserved(skills, uses) && RowsKnown(memories, skills, uses)
    }

    /** Is there a row with this full key? */
    method UseExists(u: Use) returns (found: bool)
      ensures found <==> FullKey(u) && exists r :: r in uses && SameKey(r, u)
    {
      if !FullKey(u) { return false; }
      for i := 0 to |uses|
        invariant forall j :: 0 <= j < i ==> !SameKey(uses[j], u)
      {
        if SameKey(uses[i], u) { return true; }
      }
      return false;
    }

    /** In frozen mode the row is written and the record is not. */
    method AddMemoryUsage(id: string, kind: UseType, project: string, task: string, session: string) returns (w: Written)
      requires NoTwins(uses) && (!frozen ==> Conserved())
      modifies this`memories, this`uses
      ensures NoTwins(uses) && (!frozen ==> Conserved())
      ensures w.NotFound? <==> id !in old(memories)
      ensures !w.Created? ==> memories == old(memories) && uses == old(uses)
      ensures frozen ==> memories == old(memories)
      ensures w.Created? ==>
                var u := Use(if project != "" then project else old(memories)[id].project, task, session, true, id, kind);
                && uses == old(uses) + [u]
                && (!frozen ==>
                      var was := old(memories)[id]; memories == old(memories)[id := was.(counters := Applied(was.counters, kind))])
      ensures w.AlreadyThere? <==>
                && id in old(memories)
                && var u := Use(if project != "" then project else old(memories)[id].project, task, session, true, id, kind);
                   FullKey(u) && exists r :: r in old(uses) && SameKey(r, u)
    {
      if id !in memories { return NotFound; }
      var record := memories[id];
      var u := Use(if project != "" then project else record.project, task, session, true, id, kind);
      var found := UseExists(u);
      if found { return AlreadyThere; }
      if !frozen {
        MemoryUseConserves(memories, skills, uses, u);
        memories := memories[id := record.(counters := Applied(record.counters, kind))];
      }
      uses := uses + [u];
      return Created;
    }

    method AddSkillUsage(id: string, kind: UseType, project: string, task: string, session: string) returns (w: Written)
      requires NoTwins(uses) && (!frozen ==> Conserved())
      modifies this`skills, this`uses
      ensures NoTwins(uses) && (!frozen ==> Conserved())
      ensures w.NotFound? <==> id !in old(skills)
      ensures !w.Created? ==> skills == old(skills) && uses == old(uses)
      ensures frozen ==> skills == old(skills)
      ensures w.Created? ==>
                && uses == old(uses) + [Use(project, task, session, false, id, kind)]
                && (!frozen ==>
                      var was := old(skills)[id]; skills == old(skills)[id := was.(counters := Applied(was.counters, kind))])
      ensures w.AlreadyThere? <==> id in old(skills) && FullKey(Use(project, task, session, false, id, kind))
                                   && exists r :: r in old(uses) && SameKey(r, Use(project, task, session, false, id, kind))
    {
      if id !in skills { return NotFound; }
      var record := skills[id];
      var u := Use(project, task, session, false, id, kind);
      var found := UseExists(u);
      if found { return AlreadyThere; }
      if !frozen {
        SkillUseConserves(memories, skills, uses, u);
        skills := skills[id := record.(counters := Applied(record.counters, kind))];
      }
      uses := uses + [u];
      return Created;
    }

    /** Saves a memory, new or not; false where the frozen policy forbids it. The ledger decides which counters are right. */
    method SaveMemory(id: string, record: MemoryRecord) returns (ok: bool)
      modifies this`memories
      ensures ok == !frozen && memories == if ok then old(memories)[id := record] else old(memories)
      ensures ok && old(Conserved()) ==>
                (Conserved() <==> record.counters == if id in old(memories) then old(memories)[id].counters else NO_USES)
    {
      if frozen { return false; }
      if id !in memories && RowsKnown(memories, skills, uses) { UnusedTally(uses, true, id); }
      memories := memories[id := record];
      return true;
    }

    /** Changes the status of a memory and keeps its counters. */
    method UpdateMemoryStatus(id: string, status: MemoryStatus) returns (w: Updated)
      modifies this`memories
      ensures w == if frozen then Forbidden else if id in old(memories) then Changed else UnknownId
      ensures memories == if w.Changed? then old(memories)[id := old(memories)[id].(status := status)] else old(memories)
      ensures old(Conserved()) ==> Conserved()
    {
      if frozen { return Forbidden; }
      if id !in memories { return UnknownId; }
      var ok := SaveMemory(id, memories[id].(status := status));
      return Changed;
    }

    /** Saves a skill record; what that does to the counters is up to the record. */
    method SaveSkill(id: string, record: SkillRecord) returns (ok: bool)
      modifies this`skills
      ensures ok == !frozen && skills == if ok then old(skills)[id := record] else old(skills)
      ensures old(Conserved()) && Balanced(id, old(skills), record) ==> Conserved()
    {
      if frozen { return false; }
      if Balanced(id, skills, record) && id !in skills && RowsKnown(memories, skills, uses) { UnusedTally(uses, false, id); }
      skills := skills[id := record];
      return true;
    }
  }
}
