/** The life of a skill: created from a verified success, promoted by more of them, deprecated by a harmful use. */
module Skills {
  import opened Common
  import opened KnowledgeStore

  datatype SkillConfig = SkillConfig(
    enabled: bool, requireActiveSource: bool, minConfidence: real, minSuccesses: nat, minTasks: nat, minRepositories: nat)

  /**
   What a session gives: `verified` says that its verifications passed; of an evidence item only counts whether it is a
   successful verification or test command.
   */
  datatype Evidence = Evidence(
    verified: bool, changed: bool, violations: bool, infrastructure: bool, items: map<string, bool>,
    task: string, repository: string, episode: string)

  /**
   `conditioned` says that it states when it applies and when not, `leaks` that a portable draft names source-specific
   things, `clean` that its steps use known tools and no private paths.
   */
  datatype SkillDraft = SkillDraft(
    sources: seq<string>, portable: bool, leaks: bool, conditioned: bool, clean: bool, confidence: real, evidence: seq<string>)

  /** Repeated elements go; the first of each stays in place. */
  function Dedupe(s: seq<string>): seq<string> {
    if s == [] then []
    else
      var front, last := s[..|s| - 1], s[|s| - 1];
      if last in front then Dedupe(front) else Dedupe(front) + [last]
  }

  lemma {:induction false} DedupeKeeps(s: seq<string>)
    ensures Distinct(Dedupe(s)) && Elements(Dedupe(s)) == Elements(s)
    ensures forall x :: x in Dedupe(s) <==> x in s
  {
    if s != [] {
      DedupeKeeps(s[..|s| - 1]);
      assert s == s[..|s| - 1] + [s[|s| - 1]];
    }
  }

  predicate Live(s: SkillStatus) {
    s == Draft || s == Validated || s == ActiveSkill
  }

  predicate MeetsThresholds(c: SkillConfig, s: SkillRecord) {
    s.successes >= c.minSuccesses && |s.tasks| >= c.minTasks && |s.repositories| >= c.minRepositories
  }

  // ---- The operations on one record ----

  function AfterSuccess(c: SkillConfig, s: SkillRecord, task: string, repository: string): SkillRecord {
    if task in s.tasks then s
    else
      var t := s.(successes := s.successes + 1, tasks := s.tasks + [task],
                  repositories := if repository in s.repositories then s.repositories else s.repositories + [repository]);
      if t.status == Validated && MeetsThresholds(c, t) then t.(status := ActiveSkill) else t
  }

  function AfterHarm(s: SkillRecord): SkillRecord {
    s.(counters := s.counters.(harmful := s.counters.harmful + 1), failures := s.failures + 1,
       status := if s.status == ActiveSkill then Deprecated else s.status)
  }

  /** Another session led to the same skill: its episode, task and evidence are added to the sources. */
  function Merged(s: SkillRecord, e: Evidence, draft: SkillDraft): SkillRecord {
    s.(episodes := Dedupe(s.episodes + [e.episode]), sourceTasks := Dedupe(s.sourceTasks + [e.task]),
       evidence := Dedupe(s.evidence + draft.evidence))
  }

  function NewSkill(sources: seq<string>, e: Evidence, draft: SkillDraft): SkillRecord {
    SkillRecord(Validated, Elements(sources), 1, 0, [e.task], [e.repository], [e.episode], [e.task], draft.evidence, NO_USES)
  }

  /** What the validator asks of a draft apart from its sources. */
  predicate SoundDraft(c: SkillConfig, e: Evidence, draft: SkillDraft) {
    && !e.violations && !e.infrastructure && draft.conditioned && draft.clean && draft.confidence >= c.minConfidence
    && (forall x :: x in draft.evidence ==> x in e.items) && (exists x :: x in e.items && e.items[x])
  }

  // ---- What holds of every store the operations lead to ----

  ghost predicate WellCounted(s: SkillRecord) {
    s.successes == |s.tasks| && Distinct(s.tasks) && Distinct(s.repositories)
  }

  ghost predicate Earned(c: SkillConfig, skills: map<string, SkillRecord>) {
    forall id :: id in skills ==> WellCounted(skills[id]) && (skills[id].status == ActiveSkill ==> MeetsThresholds(c, skills[id]))
  }

  predicate Clash(a: SkillRecord, b: SkillRecord) {
    Live(a.status) && Live(b.status) && a.sources == b.sources != {}
  }

  /** Is this a live skill made from exactly these memories? */
  predicate DerivedFrom(s: SkillRecord, sources: set<string>) {
    Live(s.status) && s.sources == sources != {}
  }

  /** No two live skills are derived from the same memories. */
  ghost predicate UniquelyDerived(skills: map<string, SkillRecord>) {
    forall a, b :: a in skills && b in skills && a != b ==> !Clash(skills[a], skills[b])
  }

  /** What may become of a record: counts grow, the end of a life is final, promotion is earned. */
  ghost predicate Follows(c: SkillConfig, was: SkillRecord, now: SkillRecord) {
    && now.sources == was.sources && was.successes <= now.successes && was.failures <= now.failures
    && (!Live(was.status) ==> now.status == was.status)
    && (now.status == ActiveSkill && was.status != ActiveSkill ==>
          was.status == Validated && now.successes > was.successes && MeetsThresholds(c, now))
    && (was.status == Draft ==> now.status == Draft)
  }

  ghost predicate Evolved(c: SkillConfig, was: map<string, SkillRecord>, now: map<string, SkillRecord>) {
    forall id :: id in was ==> id in now && Follows(c, was[id], now[id])
  }

  /** The counts behind a promotion only grow, so the law holds across any number of operations. */
  lemma EvolutionIsTransitive(c: SkillConfig, x: map<string, SkillRecord>, y: map<string, SkillRecord>, z: map<string, SkillRecord>)
    requires Evolved(c, x, y) && Evolved(c, y, z) && Earned(c, z)
    ensures Evolved(c, x, z)
  {
  }

  lemma SuccessIsEarned(c: SkillConfig, s: SkillRecord, task: string, repository: string)
    requires WellCounted(s) && (s.status == ActiveSkill ==> MeetsThresholds(c, s))
    ensures var t := AfterSuccess(c, s, task, repository);
      WellCounted(t) && (t.status == ActiveSkill ==> MeetsThresholds(c, t))
    ensures AfterSuccess(c, s, task, repository).successes == |Elements(s.tasks) + {task}|
  {
    DistinctSize(s.tasks);
    assert repository in s.repositories || Distinct(s.repositories + [repository]);
    if task in s.tasks {
      assert Elements(s.tasks) + {task} == Elements(s.tasks);
    } else {
      DistinctSize(s.tasks + [task]);
      assert Elements(s.tasks + [task]) == Elements(s.tasks) + {task};
    }
  }

  lemma {:induction false} DistinctSize(s: seq<string>)
    requires Distinct(s)
    ensures |Elements(s)| == |s|
  {
    if s != [] {
      DistinctSize(s[..|s| - 1]);
      assert s == s[..|s| - 1] + [s[|s| - 1]];
      assert Elements(s) == Elements(s[..|s| - 1]) + {s[|s| - 1]};
    }
  }

  /** Merging adds to the sources of a skill and to nothing that counts. */
  lemma MergeKeepsCounts(s: SkillRecord, e: Evidence, draft: SkillDraft)
    ensures var t := Merged(s, e, draft);
      && (WellCounted(t) <==> WellCounted(s)) && t.status == s.status && t.counters == s.counters && t.tasks == s.tasks
      && Elements(t.episodes) == Elements(s.episodes) + {e.episode} && Elements(t.sourceTasks) == Elements(s.sourceTasks) + {e.task}
      && Elements(t.evidence) == Elements(s.evidence) + Elements(draft.evidence)
      && Distinct(t.episodes) && Distinct(t.sourceTasks) && Distinct(t.evidence)
  {
    DedupeKeeps(s.episodes + [e.episode]);
    DedupeKeeps(s.sourceTasks + [e.task]);
    DedupeKeeps(s.evidence + draft.evidence);
  }

  lemma HarmKeepsCounts(s: SkillRecord)
    ensures WellCounted(AfterHarm(s)) == WellCounted(s) && AfterHarm(s).status != ActiveSkill
  {
  }

  lemma ReplaceKeepsUnique(skills: map<string, SkillRecord>, id: string, s: SkillRecord)
    requires UniquelyDerived(skills) && id in skills && s.sources == skills[id].sources
    requires Live(s.status) ==> Live(skills[id].status)
    ensures UniquelyDerived(skills[id := s])
  {
    var now := skills[id := s];
    forall a, b | a in now && b in now && a != b
      ensures !Clash(now[a], now[b])
    {
      assert !Clash(skills[a], skills[b]);
    }
  }

  /** A record replaced by one that follows it. */
  lemma ReplaceKeepsLaws(c: SkillConfig, skills: map<string, SkillRecord>, id: string, s: SkillRecord)
    requires Earned(c, skills) && UniquelyDerived(skills) && id in skills && Follows(c, skills[id], s)
    requires WellCounted(s) && (s.status == ActiveSkill ==> MeetsThresholds(c, s))
    ensures Earned(c, skills[id := s]) && UniquelyDerived(skills[id := s]) && Evolved(c, skills, skills[id := s])
  {
    ReplaceKeepsUnique(skills, id, s);
  }

  lemma NewKeepsLaws(c: SkillConfig, skills: map<string, SkillRecord>, id: string, s: SkillRecord)
    requires Earned(c, skills) && UniquelyDerived(skills) && id !in skills && WellCounted(s) && s.status == Validated
    requires forall x :: x in skills ==> !DerivedFrom(skills[x], s.sources)
    ensures Earned(c, skills[id := s]) && UniquelyDerived(skills[id := s]) && Evolved(c, skills, skills[id := s])
  {
  }

  lemma NothingEvolves(c: SkillConfig, skills: map<string, SkillRecord>)
    ensures Evolved(c, skills, skills)
  {
  }

  datatype Candidate = Skipped | Upserted(id: string) | CreatedSkill(id: string) | Refused

  class SkillLifecycleManager {
    const config: SkillConfig
    const store: Store

    constructor (config: SkillConfig, store: Store)
      ensures this.config == config && this.store == store
    {
      this.config, this.store := config, store;
    }

    ghost predicate Valid()
      reads store
    {
      Earned(config, store.skills) && UniquelyDerived(store.skills) && (!store.frozen ==> store.Conserved())
    }

    predicate ActiveSources(sources: seq<string>)
      reads store
    {
      sources != [] && forall m :: m in sources ==> m in store.memories && store.memories[m].status == ActiveMemory
    }

    /** A live skill made from exactly these memories. */
    method FindByDerivation(sources: set<string>) returns (found: Option<string>)
      ensures found.Some? ==> found.value in store.skills && DerivedFrom(store.skills[found.value], sources)
      ensures found.None? ==> forall x :: x in store.skills ==> !DerivedFrom(store.skills[x], sources)
    {
      if sources == {} { return None; }
      var rest := store.skills.Keys;
      while rest != {}
        invariant rest <= store.skills.Keys
        invariant forall x :: x in store.skills && x !in rest ==> !DerivedFrom(store.skills[x], sources)
        decreases |rest|
      {
        var id :| id in rest;
        if DerivedFrom(store.skills[id], sources) { return Some(id); }
        rest := rest - {id};
      }
      return None;
    }

    /** The draft's own sources, or else those of the session. */
    function SourcesOf(draft: SkillDraft, sourceIds: seq<string>): seq<string> {
      if draft.sources != [] then draft.sources else sourceIds
    }

    /** All gates a candidate has to pass. */
    predicate Accepts(e: Evidence, draft: Option<SkillDraft>, sourceIds: seq<string>)
      reads store
    {
      && config.enabled && e.verified
      && (if config.requireActiveSource then ActiveSources(sourceIds) else e.changed)
      && draft.Some? && SoundDraft(config, e, draft.value)
      && (draft.value.portable ==> !draft.value.leaks && ActiveSources(SourcesOf(draft.value, sourceIds)))
    }

    /** The checks before a candidate is made; `id` would be its new id. */
    method CandidateFromSuccess(id: string, e: Evidence, draft: Option<SkillDraft>, sourceIds: seq<string>) returns (r: Candidate)
      requires Valid() && id !in store.skills
      modifies store`skills
      ensures Valid() && Evolved(config, old(store.skills), store.skills)
      ensures r.Skipped? <==> !old(Accepts(e, draft, sourceIds))
      ensures r.Refused? <==> old(Accepts(e, draft, sourceIds)) && store.frozen
      ensures r.Skipped? || r.Refused? ==> store.skills == old(store.skills)
      ensures !r.Skipped? ==>
                && config.enabled && e.verified && !e.violations && !e.infrastructure && draft.Some?
                && draft.value.confidence >= config.minConfidence && draft.value.conditioned && draft.value.clean
                && (exists x :: x in e.items && e.items[x]) && (forall x :: x in draft.value.evidence ==> x in e.items)
                && (config.requireActiveSource || e.changed) && !(draft.value.portable && draft.value.leaks)
      ensures !r.Skipped? && config.requireActiveSource ==>
                sourceIds != [] && forall m :: m in sourceIds ==> m in store.memories && store.memories[m].status == ActiveMemory
      ensures !r.Skipped? && draft.value.portable ==>
                forall m :: m in (if draft.value.sources != [] then draft.value.sources else sourceIds) ==>
                  m in store.memories && store.memories[m].status == ActiveMemory
      ensures r.CreatedSkill? ==>
                id in store.skills && var s := store.skills[id];
                && s.status == Validated && s.sources == Elements(SourcesOf(draft.value, sourceIds))
                && s.successes == 1 && s.failures == 0 && s.tasks == [e.task] && s.repositories == [e.repository]
                && s.episodes == [e.episode] && s.sourceTasks == [e.task] && s.evidence == draft.value.evidence
                && s.counters == Counters(0, 0, 0, 0, 0)
      ensures r.CreatedSkill? ==>
                var sources := SourcesOf(draft.value, sourceIds);
                && r.id == id && store.skills == old(store.skills)[id := NewSkill(sources, e, draft.value)]
                && forall x :: x in old(store.skills) ==> !DerivedFrom(old(store.skills)[x], Elements(sources))
      ensures r.Upserted? ==>
                && r.id in old(store.skills) && DerivedFrom(old(store.skills)[r.id], Elements(SourcesOf(draft.value, sourceIds)))
                && store.skills == old(store.skills)[r.id := Merged(old(store.skills)[r.id], e, draft.value)]
    {
      hide Earned, UniquelyDerived, Evolved, Store.Conserved, WellCounted, Merged;
      NothingEvolves(config, store.skills);
      if !config.enabled || !e.verified { return Skipped; }
      if config.requireActiveSource {
        if !ActiveSources(sourceIds) { return Skipped; }
      } else if !e.changed {
        return Skipped;
      }
      if draft.None? { return Skipped; }
      var sources := SourcesOf(draft.value, sourceIds);
      if draft.value.portable && draft.value.leaks { return Skipped; }
      if !SoundDraft(config, e, draft.value) || (draft.value.portable && !ActiveSources(sources)) { return Skipped; }
      var duplicate := FindByDerivation(Elements(sources));
      if duplicate.Some? {
        r := Upsert(duplicate.value, e, draft.value);
      } else {
        r := Create(id, sources, e, draft.value);
      }
    }

    /** The skill made from the same memories learns of one more session. */
    method Upsert(id: string, e: Evidence, draft: SkillDraft) returns (r: Candidate)
      requires Valid() && id in store.skills
      modifies store`skills
      ensures Valid() && Evolved(config, old(store.skills), store.skills)
      ensures r == if store.frozen then Refused else Upserted(id)
      ensures store.skills == if store.frozen then old(store.skills)
                              else old(store.skills)[id := Merged(old(store.skills)[id], e, draft)]
    {
      hide UniquelyDerived, Evolved, Store.Conserved, WellCounted;
      NothingEvolves(config, store.skills);
      ghost var before := store.skills;
      var now := Merged(store.skills[id], e, draft);
      MergeKeepsCounts(store.skills[id], e, draft);
      ReplaceKeepsLaws(config, before, id, now);
      var ok := store.SaveSkill(id, now);
      return if ok then Upserted(id) else Refused;
    }

    method Create(id: string, sources: seq<string>, e: Evidence, draft: SkillDraft) returns (r: Candidate)
      requires Valid() && id !in store.skills
      requires forall x :: x in store.skills ==> !DerivedFrom(store.skills[x], Elements(sources))
      modifies store`skills
      ensures Valid() && Evolved(config, old(store.skills), store.skills)
      ensures r == if store.frozen then Refused else CreatedSkill(id)
      ensures store.skills == if store.frozen then old(store.skills) else old(store.skills)[id := NewSkill(sources, e, draft)]
    {
      hide UniquelyDerived, Evolved, Store.Conserved, Earned;
      NothingEvolves(config, store.skills);
      NewKeepsLaws(config, store.skills, id, NewSkill(sources, e, draft));
      var ok := store.SaveSkill(id, NewSkill(sources, e, draft));
      return if ok then CreatedSkill(id) else Refused;
    }

    /** False for an unknown skill, and where the store is frozen and something would change. */
    method RecordSuccess(id: string, task: string, repository: string) returns (ok: bool)
      requires Valid()
      modifies store`skills
      ensures Valid() && Evolved(config, old(store.skills), store.skills)
      ensures ok <==> id in old(store.skills) && (task in old(store.skills)[id].tasks || !store.frozen)
      ensures store.skills == if ok then old(store.skills)[id := AfterSuccess(config, old(store.skills)[id], task, repository)]
                              else old(store.skills)
      ensures ok && task in old(store.skills)[id].tasks ==> store.skills[id] == old(store.skills)[id]
      ensures ok && task !in old(store.skills)[id].tasks ==>
                var was, now := old(store.skills)[id], store.skills[id];
                && now.successes == was.successes + 1 && now.tasks == was.tasks + [task]
                && Elements(now.repositories) == Elements(was.repositories) + {repository}
                && now.status == if was.status == Validated && now.successes >= config.minSuccesses
                                    && |now.tasks| >= config.minTasks && |now.repositories| >= config.minRepositories
                                 then ActiveSkill else was.status
    {
      hide UniquelyDerived, Evolved, Store.Conserved, WellCounted;
      NothingEvolves(config, store.skills);
      if id !in store.skills { return false; }
      var was := store.skills[id];
      if task in was.tasks {
        assert store.skills == store.skills[id := was];
        return true;
      }
      SuccessIsEarned(config, was, task, repository);
      ReplaceKeepsLaws(config, store.skills, id, AfterSuccess(config, was, task, repository));
      var now := was.(successes := was.successes + 1, tasks := was.tasks + [task]);
      if repository !in now.repositories { now := now.(repositories := now.repositories + [repository]); }
      if now.status == Validated && MeetsThresholds(config, now) { now := now.(status := ActiveSkill); }
      assert Elements(now.repositories) == Elements(was.repositories) + {repository};
      ok := store.SaveSkill(id, now);
    }

    method RecordHarmfulUse(id: string) returns (ok: bool)
      requires Valid()
      modifies store`skills
      ensures Valid() && Evolved(config, old(store.skills), store.skills)
      ensures ok <==> id in old(store.skills) && !store.frozen
      ensures store.skills == if ok then old(store.skills)[id := AfterHarm(old(store.skills)[id])] else old(store.skills)
      ensures ok ==>
                id in store.skills && var was, now := old(store.skills)[id], store.skills[id];
                && now.status == (if was.status == ActiveSkill then Deprecated else was.status)
                && now.failures == was.failures + 1 && now.counters.harmful == was.counters.harmful + 1
                && now.successes == was.successes && now.tasks == was.tasks && now.sources == was.sources
    {
      hide UniquelyDerived, Evolved, Store.Conserved, WellCounted;
      NothingEvolves(config, store.skills);
      if id !in store.skills { return false; }
      var was := store.skills[id];
      HarmKeepsCounts(was);
      ReplaceKeepsLaws(config, store.skills, id, AfterHarm(was));
      var now := was.(counters := was.counters.(harmful := was.counters.harmful + 1), failures := was.failures + 1);
      if now.status == ActiveSkill { now := now.(status := Deprecated); }
      ok := store.SaveSkill(id, now);
    }
  }
}
