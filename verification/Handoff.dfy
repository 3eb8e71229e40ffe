/** The record handed to a new context segment, built from the tool results of the old one. */
module Handoff {
  import opened Common
  import opened Messages
  import opened Buffer

  /** A tool result with the step and status of its turn. */
  datatype Result = Result(step: nat, turnStale: bool, obs: Observation) {
    function Id(): EvidenceId {
      EvidenceId(step, obs.callId)
    }

    predicate WritesTo(path: string) {
      obs.tool == "write_file" && obs.success && obs.meta.path == path != ""
    }

    predicate ReadsFrom(path: string) {
      obs.tool == "read_file" && obs.success && obs.meta.path == path != ""
    }

    predicate IsVerification() {
      obs.tool == "bash" && obs.meta.verification
    }
  }

  /** Stands for the text `step-<step>-<call id>`. */
  datatype EvidenceId = EvidenceId(step: nat, callId: string)

  datatype Evidence = Evidence(id: EvidenceId, tool: string, artifact: Option<string>, description: string)

  datatype FileStatus = Current | Observed

  datatype FileState = FileState(
    path: string, sha: Option<string>, status: FileStatus, summary: string, lastWrite: Option<nat>, evidence: EvidenceId)

  datatype VerificationState = VerificationState(
    command: string, exitCode: int, result: string, codeEpoch: int, artifact: Option<string>, step: nat, stale: bool)

  datatype Fact = Fact(evidence: seq<EvidenceId>, step: nat)

  datatype Record = Record(
    confirmed: seq<Fact>, files: seq<FileState>, verifications: seq<VerificationState>, evidence: seq<Evidence>,
    staleExcluded: seq<EvidenceId>, sourceSteps: seq<nat>)

  function TurnResults(t: Turn, replies: seq<Reply>): seq<Result> {
    if replies == [] then []
    else TurnResults(t, replies[..|replies| - 1]) +
         match replies[|replies| - 1].content
         case Parsed(o) => [Result(t.step, t.status == StaleTurn, o)]
         case Raw(_) => []
  }

  function Results(items: seq<Item>): seq<Result> {
    if items == [] then []
    else Results(items[..|items| - 1]) +
         match items[|items| - 1]
         case ToolTurn(t) => TurnResults(t, t.replies)
         case Note(_, _, _) => []
  }

  function Steps(items: seq<Item>): seq<nat> {
    if items == [] then []
    else Steps(items[..|items| - 1]) + if items[|items| - 1].ToolTurn? then [items[|items| - 1].turn.step] else []
  }

  // ---- What the record should say about files ----

  ghost predicate LastWrite(rs: seq<Result>, i: nat, path: string) {
    i < |rs| && rs[i].WritesTo(path) && forall j :: i < j < |rs| ==> !rs[j].WritesTo(path)
  }

  ghost predicate OnlyRead(rs: seq<Result>, i: nat, path: string) {
    && i < |rs| && rs[i].ReadsFrom(path)
    && (forall j :: 0 <= j < i ==> !rs[j].ReadsFrom(path)) && (forall j :: 0 <= j < |rs| ==> !rs[j].WritesTo(path))
  }

  /** The hash a read reports; without one the file itself is asked, `diskSha`. */
  function ReadState(r: Result, diskSha: string -> Option<string>): FileState {
    var sha := if r.obs.meta.sha.Some? then r.obs.meta.sha else diskSha(r.obs.meta.path);
    FileState(r.obs.meta.path, sha, Observed, r.obs.summary, None, r.Id())
  }

  function WriteState(r: Result): FileState {
    FileState(r.obs.meta.path, r.obs.meta.sha, Current, r.obs.summary, Some(r.step), r.Id())
  }

  /** `f` tells the last write of its path, or, if there is none, the first read. */
  ghost predicate Tells(rs: seq<Result>, disk: string -> Option<string>, f: FileState) {
    exists i: nat ::
      (LastWrite(rs, i, f.path) && f == WriteState(rs[i])) || (OnlyRead(rs, i, f.path) && f == ReadState(rs[i], disk))
  }

  ghost predicate Touched(rs: seq<Result>, path: string) {
    exists i: nat :: i < |rs| && (rs[i].WritesTo(path) || rs[i].ReadsFrom(path))
  }

  ghost predicate FilesTold(rs: seq<Result>, disk: string -> Option<string>, files: map<string, FileState>) {
    && (forall p :: p in files <==> Touched(rs, p))
    && (forall p :: p in files ==> files[p].path == p && Tells(rs, disk, files[p]))
  }

  function FilesAfter(files: map<string, FileState>, r: Result, disk: string -> Option<string>): map<string, FileState> {
    var path := r.obs.meta.path;
    if r.WritesTo(path) then files[path := WriteState(r)]
    else if r.ReadsFrom(path) && path !in files then files[path := ReadState(r, disk)]
    else files
  }

  lemma TouchedGrows(rs: seq<Result>, r: Result, p: string)
    ensures Touched(rs + [r], p) <==> Touched(rs, p) || r.WritesTo(p) || r.ReadsFrom(p)
  {
    var rs' := rs + [r];
    if Touched(rs', p) {
      var i: nat :| i < |rs'| && (rs'[i].WritesTo(p) || rs'[i].ReadsFrom(p));
      assert i < |rs| ==> rs[i] == rs'[i];
    }
    if Touched(rs, p) {
      var i: nat :| i < |rs| && (rs[i].WritesTo(p) || rs[i].ReadsFrom(p));
      assert rs'[i] == rs[i];
    }
    if r.WritesTo(p) || r.ReadsFrom(p) { assert rs'[|rs|] == r; }
  }

  lemma StillTells(rs: seq<Result>, disk: string -> Option<string>, r: Result, f: FileState)
    requires Tells(rs, disk, f) && !r.WritesTo(f.path)
    ensures Tells(rs + [r], disk, f)
  {
    var rs' := rs + [r];
    var i: nat :|
      (LastWrite(rs, i, f.path) && f == WriteState(rs[i])) || (OnlyRead(rs, i, f.path) && f == ReadState(rs[i], disk));
    assert rs'[i] == rs[i];
    assert LastWrite(rs, i, f.path) ==> LastWrite(rs', i, f.path);
    assert OnlyRead(rs, i, f.path) ==> OnlyRead(rs', i, f.path);
  }

  lemma NewTells(rs: seq<Result>, disk: string -> Option<string>, r: Result, p: string)
    requires r.obs.meta.path == p && (r.WritesTo(p) || (r.ReadsFrom(p) && !Touched(rs, p)))
    ensures Tells(rs + [r], disk, if r.WritesTo(p) then WriteState(r) else ReadState(r, disk))
  {
    var rs' := rs + [r];
    assert rs'[|rs|] == r;
    if r.WritesTo(p) {
      assert LastWrite(rs', |rs|, p);
    } else {
      assert forall j :: 0 <= j < |rs| ==> rs'[j] == rs[j] && !rs[j].WritesTo(p) && !rs[j].ReadsFrom(p);
      assert OnlyRead(rs', |rs|, p);
    }
  }

  lemma FilesGrow(rs: seq<Result>, disk: string -> Option<string>, files: map<string, FileState>, r: Result)
    requires FilesTold(rs, disk, files)
    ensures FilesTold(rs + [r], disk, FilesAfter(files, r, disk))
  {
    var files' := FilesAfter(files, r, disk);
    var path := r.obs.meta.path;
    forall p
      ensures p in files' <==> Touched(rs + [r], p)
    {
      TouchedGrows(rs, r, p);
    }
    forall p | p in files'
      ensures files'[p].path == p && Tells(rs + [r], disk, files'[p])
    {
      if p == path && (r.WritesTo(path) || (r.ReadsFrom(path) && path !in files)) {
        NewTells(rs, disk, r, p);
      } else {
        StillTells(rs, disk, r, files[p]);
      }
    }
  }

  // ---- Evidence and verifications ----

  function EvidenceOf(r: Result): Evidence {
    Evidence(r.Id(), if r.obs.tool == "" then "tool" else r.obs.tool, r.obs.meta.artifact, r.obs.summary)
  }

  function AllEvidence(rs: seq<Result>): (es: seq<Evidence>)
    ensures |es| == |rs| && forall i :: 0 <= i < |rs| ==> es[i] == EvidenceOf(rs[i])
  {
    seq(|rs|, i requires 0 <= i < |rs| => EvidenceOf(rs[i]))
  }

  function VerificationOf(r: Result): VerificationState {
    var exit := if r.obs.meta.exitCode.Some? then r.obs.meta.exitCode.value else 0;
    VerificationState(r.obs.meta.command, exit, r.obs.summary, r.obs.meta.codeEpoch, r.obs.meta.artifact, r.step, IsStale(r))
  }

  predicate IsStale(r: Result) {
    r.obs.meta.contextStatus == Some(StaleReason) || r.turnStale
  }

  /** What a verification result says, field by field. */
  ghost predicate Reports(v: VerificationState, r: Result) {
    && v.command == r.obs.meta.command && v.result == r.obs.summary && v.step == r.step
    && (r.obs.meta.exitCode.Some? ==> v.exitCode == r.obs.meta.exitCode.value)
    && (r.obs.meta.exitCode.None? ==> v.exitCode == 0)
    && v.codeEpoch == r.obs.meta.codeEpoch && v.artifact == r.obs.meta.artifact
    && (v.stale <==> r.turnStale || r.obs.meta.contextStatus == Some(StaleReason))
  }

  function Verifications(rs: seq<Result>): seq<VerificationState> {
    if rs == [] then []
    else
      var r := rs[|rs| - 1];
      Verifications(rs[..|rs| - 1]) + if r.IsVerification() then [VerificationOf(r)] else []
  }

  function StaleVerifications(rs: seq<Result>): seq<EvidenceId> {
    if rs == [] then []
    else
      var r := rs[|rs| - 1];
      StaleVerifications(rs[..|rs| - 1]) + if r.IsVerification() && IsStale(r) then [r.Id()] else []
  }

  /** `places` are the places of the verification results, and the list tells exactly these, in their order. */
  ghost predicate VerifiedAt(rs: seq<Result>, vs: seq<VerificationState>, places: seq<nat>) {
    && |vs| == |places|
    && (forall m, n :: 0 <= m < n < |places| ==> places[m] < places[n])
    && (forall i: nat :: i in places <==> i < |rs| && rs[i].obs.tool == "bash" && rs[i].obs.meta.verification)
    && (forall n :: 0 <= n < |places| ==> places[n] < |rs| && Reports(vs[n], rs[places[n]]))
  }

  lemma {:induction false} VerificationsAreReported(rs: seq<Result>) returns (places: seq<nat>)
    ensures VerifiedAt(rs, Verifications(rs), places)
  {
    hide *;
    if rs == [] {
      places := [];
      NoVerifications();
    } else {
      var n := |rs| - 1;
      places := VerificationsAreReported(rs[..n]);
      VerifiedAtOneMore(rs, Verifications(rs[..n]), places);
      VerificationsGrow(rs);
      if rs[n].IsVerification() { places := places + [n]; }
    }
  }

  lemma NoVerifications()
    ensures VerifiedAt([], Verifications([]), [])
  {
  }

  lemma VerificationsGrow(rs: seq<Result>)
    requires rs != []
    ensures var n := |rs| - 1;
      Verifications(rs) == if rs[n].IsVerification() then Verifications(rs[..n]) + [VerificationOf(rs[n])] else Verifications(rs[..n])
  {
  }

  lemma VerifiedAtOneMore(rs: seq<Result>, vs: seq<VerificationState>, places: seq<nat>)
    requires rs != [] && VerifiedAt(rs[..|rs| - 1], vs, places)
    ensures if rs[|rs| - 1].IsVerification()
            then VerifiedAt(rs, vs + [VerificationOf(rs[|rs| - 1])], places + [|rs| - 1])
            else VerifiedAt(rs, vs, places)
  {
    var n := |rs| - 1;
    assert forall m :: 0 <= m < |places| ==> places[m] in places && places[m] < n;
    assert forall i :: 0 <= i < n ==> rs[..n][i] == rs[i];
    if rs[n].IsVerification() {
      assert Reports(VerificationOf(rs[n]), rs[n]);
      hide Reports, VerificationOf;
      assert forall i: nat :: i in places + [n] <==> i in places || i == n;
    }
  }

  /** The evidence is of a verification that is stale: it says so itself, or its turn does. */
  ghost predicate IsStaleVerification(r: Result, id: EvidenceId) {
    && r.obs.tool == "bash" && r.obs.meta.verification && (r.turnStale || r.obs.meta.contextStatus == Some(StaleReason))
    && id == EvidenceId(r.step, r.obs.callId)
  }

  ghost predicate StaleAt(rs: seq<Result>, id: EvidenceId) {
    exists i :: 0 <= i < |rs| && IsStaleVerification(rs[i], id)
  }

  /** Excluded is exactly the evidence of the verifications that are stale. */
  lemma {:induction false} StaleIsExcluded(rs: seq<Result>, id: EvidenceId)
    ensures id in StaleVerifications(rs) <==> StaleAt(rs, id)
  {
    if rs != [] {
      StaleIsExcluded(rs[..|rs| - 1], id);
      StaleOneMore(rs, id);
    }
  }

  lemma StaleOneMore(rs: seq<Result>, id: EvidenceId)
    requires rs != []
    ensures StaleAt(rs, id) <==> StaleAt(rs[..|rs| - 1], id) || (rs[|rs| - 1].IsVerification() && IsStale(rs[|rs| - 1]) && id == rs[|rs| - 1].Id())
  {
    var n := |rs| - 1;
    assert forall i :: 0 <= i < n ==> rs[..n][i] == rs[i];
    if StaleAt(rs[..n], id) {
      var i :| 0 <= i < n && IsStaleVerification(rs[..n][i], id);
      assert IsStaleVerification(rs[i], id);
    }
    if StaleAt(rs, id) {
      var i :| 0 <= i <= n && IsStaleVerification(rs[i], id);
      assert i < n ==> IsStaleVerification(rs[..n][i], id);
    }
    assert IsStaleVerification(rs[n], id) <==> rs[n].IsVerification() && IsStale(rs[n]) && id == rs[n].Id();
  }

  /** A file of the record, field by field: the last successful write of its path, or else the first successful read. */
  lemma FileIsTold(rs: seq<Result>, disk: string -> Option<string>, f: FileState)
    requires Tells(rs, disk, f)
    ensures exists i: nat :: i < |rs| && rs[i].obs.success && rs[i].obs.meta.path == f.path != ""
              && f.summary == rs[i].obs.summary && f.evidence == EvidenceId(rs[i].step, rs[i].obs.callId)
              && if rs[i].obs.tool == "write_file"
                 then f.status == Current && f.sha == rs[i].obs.meta.sha && f.lastWrite == Some(rs[i].step)
                      && forall j :: i < j < |rs| && rs[j].obs.tool == "write_file" && rs[j].obs.success ==> rs[j].obs.meta.path != f.path
                 else rs[i].obs.tool == "read_file" && f.status == Observed && f.lastWrite == None
                      && (f.sha == if rs[i].obs.meta.sha.Some? then rs[i].obs.meta.sha else disk(f.path))
                      && (forall j :: 0 <= j < |rs| && rs[j].obs.tool == "write_file" && rs[j].obs.success ==> rs[j].obs.meta.path != f.path)
                      && forall j :: 0 <= j < i && rs[j].obs.tool == "read_file" && rs[j].obs.success ==> rs[j].obs.meta.path != f.path
  {
    var i: nat :|
      (LastWrite(rs, i, f.path) && f == WriteState(rs[i])) || (OnlyRead(rs, i, f.path) && f == ReadState(rs[i], disk));
    if LastWrite(rs, i, f.path) {
      assert forall j :: i < j < |rs| ==> !rs[j].WritesTo(f.path);
    } else {
      assert forall j :: 0 <= j < |rs| ==> !rs[j].WritesTo(f.path);
      assert forall j :: 0 <= j < i ==> !rs[j].ReadsFrom(f.path);
    }
  }

  lemma {:induction false} VerificationHasEvidence(rs: seq<Result>, v: VerificationState) returns (i: nat)
    requires v in Verifications(rs)
    ensures i < |rs| && rs[i].IsVerification() && rs[i].step == v.step
  {
    var r := rs[|rs| - 1];
    if r.IsVerification() && v == VerificationOf(r) {
      i := |rs| - 1;
    } else {
      i := VerificationHasEvidence(rs[..|rs| - 1], v);
    }
  }

  // ---- The record ----

  predicate Cites(r: Record, id: EvidenceId) {
    exists e :: e in r.evidence && e.id == id
  }

  /** What the schema checks of every record: facts cite evidence that is there. */
  predicate ValidEvidence(r: Record) {
    forall f, id :: f in r.confirmed && id in f.evidence ==> Cites(r, id)
  }

  predicate SortedByPath(files: seq<FileState>) {
    forall i, j :: 0 <= i < j < |files| ==> StringLess(files[i].path, files[j].path)
  }

  /** What the record must say about these results. */
  ghost predicate Summarizes(rs: seq<Result>, disk: string -> Option<string>, r: Record) {
    && ValidEvidence(r)
    && SortedByPath(r.files)
    && (forall p :: Touched(rs, p) <==> exists f :: f in r.files && f.path == p)
    && (forall f :: f in r.files ==> Tells(rs, disk, f) && Cites(r, f.evidence))
    && r.verifications == LastOf(Verifications(rs), 5)
    && (forall v :: v in r.verifications ==> exists e :: e in r.evidence && e.tool == "bash" && e.id.step == v.step)
    && IsSubsequence(r.evidence, AllEvidence(rs))
    && r.staleExcluded == StaleVerifications(rs)
  }

  method InsertByPath(files: seq<FileState>, f: FileState) returns (r: seq<FileState>)
    requires SortedByPath(files) && forall g :: g in files ==> g.path != f.path
    ensures SortedByPath(r) && forall g :: g in r <==> g in files || g == f
  {
    var i := 0;
    while i < |files| && StringLess(files[i].path, f.path)
      invariant i <= |files| && forall j :: 0 <= j < i ==> StringLess(files[j].path, f.path)
    {
      i := i + 1;
    }
    r := files[..i] + [f] + files[i..];
    InsertedIsSorted(files, f, i);
    assert forall g :: g in r <==> g in files[..i] || g == f || g in files[i..];
    assert files == files[..i] + files[i..];
  }

  lemma InsertedIsSorted(files: seq<FileState>, f: FileState, i: nat)
    requires SortedByPath(files) && i <= |files| && forall g :: g in files ==> g.path != f.path
    requires forall j :: 0 <= j < i ==> StringLess(files[j].path, f.path)
    requires i < |files| ==> !StringLess(files[i].path, f.path)
    ensures SortedByPath(files[..i] + [f] + files[i..])
  {
    forall k | i <= k < |files|
      ensures StringLess(f.path, files[k].path)
    {
      assert files[i] in files;
      StringLessIsStrict(f.path, files[i].path);
      if i < k { StringLessIsTransitive(f.path, files[i].path, files[k].path); }
    }
  }

  method SortedFiles(files: map<string, FileState>) returns (r: seq<FileState>)
    requires forall p :: p in files ==> files[p].path == p
    ensures SortedByPath(r) && forall f :: f in r <==> f.path in files && files[f.path] == f
  {
    r := [];
    var rest := files.Keys;
    while rest != {}
      invariant rest <= files.Keys && SortedByPath(r)
      invariant forall f :: f in r <==> f.path in files && f.path !in rest && files[f.path] == f
      decreases |rest|
    {
      var p :| p in rest;
      r := InsertByPath(r, files[p]);
      rest := rest - {p};
    }
  }

  /** The evidence that is kept: what facts and files cite, and the commands of the last verifications. */
  predicate Kept(e: Evidence, cited: set<EvidenceId>, steps: set<nat>) {
    e.id in cited || (e.tool == "bash" && e.id.step in steps)
  }

  function KeptEvidence(es: seq<Evidence>, cited: set<EvidenceId>, steps: set<nat>): (r: seq<Evidence>)
    ensures forall e :: e in r <==> e in es && Kept(e, cited, steps)
  {
    if es == [] then []
    else if Kept(es[0], cited, steps) then [es[0]] + KeptEvidence(es[1..], cited, steps)
    else KeptEvidence(es[1..], cited, steps)
  }

  lemma {:induction false} KeptInOrder(es: seq<Evidence>, cited: set<EvidenceId>, steps: set<nat>)
    ensures IsSubsequence(KeptEvidence(es, cited, steps), es)
  {
    if es != [] {
      KeptInOrder(es[1..], cited, steps);
      assert Kept(es[0], cited, steps) ==> KeptEvidence(es, cited, steps)[1..] == KeptEvidence(es[1..], cited, steps);
    }
  }

  lemma LastAreIn<T>(s: seq<T>, k: int)
    ensures forall x :: x in LastOf(s, k) ==> x in s
  {
  }

  method BuildRecord(rs: seq<Result>, ghost disk: string -> Option<string>, files: map<string, FileState>,
                     verifications: seq<VerificationState>, stale: seq<EvidenceId>, steps: seq<nat>)
    returns (r: Record)
    requires FilesTold(rs, disk, files) && verifications == Verifications(rs) && stale == StaleVerifications(rs)
    ensures Summarizes(rs, disk, r) && r.sourceSteps == steps
    ensures r.confirmed == if rs == [] then [] else [Fact([rs[0].Id()], rs[0].step)]
  {
    var evidence := AllEvidence(rs);
    var confirmed := if evidence == [] then [] else [Fact([evidence[0].id], evidence[0].id.step)];
    var cited := (set f, id | f in confirmed && id in f.evidence :: id) + set p | p in files :: files[p].evidence;
    var last := LastOf(verifications, 5);
    var verified := set v | v in last :: v.step;
    var sorted := SortedFiles(files);
    r := Record(confirmed, sorted, last, KeptEvidence(evidence, cited, verified), stale, steps);
    FactsAreCited(rs, r, cited, verified);
    hide FilesTold, KeptEvidence, Verifications, StaleVerifications, ValidEvidence, Kept;
    EverythingIsCited(rs, disk, files, r, cited, verified);
  }

  lemma EverythingIsCited(rs: seq<Result>, disk: string -> Option<string>, files: map<string, FileState>, r: Record,
                          cited: set<EvidenceId>, steps: set<nat>)
    requires FilesTold(rs, disk, files) && ValidEvidence(r) && SortedByPath(r.files)
    requires forall f :: f in r.files <==> f.path in files && files[f.path] == f
    requires forall p :: p in files ==> files[p].evidence in cited
    requires r.verifications == LastOf(Verifications(rs), 5) && r.staleExcluded == StaleVerifications(rs)
    requires forall v :: v in r.verifications ==> v.step in steps
    requires r.evidence == KeptEvidence(AllEvidence(rs), cited, steps)
    ensures Summarizes(rs, disk, r)
  {
    hide FilesTold, Tells, Touched, KeptEvidence, Verifications, StaleVerifications, ValidEvidence, Cites, SortedByPath;
    KeptInOrder(AllEvidence(rs), cited, steps);
    FilesAreListed(rs, disk, files, r.files);
    forall f | f in r.files
      ensures Cites(r, f.evidence)
    {
      FileIsCited(rs, disk, f, r, cited, steps);
    }
    VerificationsAreCited(rs, r, cited, steps);
  }

  lemma FactsAreCited(rs: seq<Result>, r: Record, cited: set<EvidenceId>, steps: set<nat>)
    requires r.confirmed == if rs == [] then [] else [Fact([rs[0].Id()], rs[0].step)]
    requires (forall f, id :: f in r.confirmed && id in f.evidence ==> id in cited)
    requires r.evidence == KeptEvidence(AllEvidence(rs), cited, steps)
    ensures ValidEvidence(r)
  {
    if rs != [] {
      var e := AllEvidence(rs)[0];
      assert r.confirmed[0] in r.confirmed && r.confirmed[0].evidence[0] in r.confirmed[0].evidence;
      assert e in r.evidence;
    }
  }

  lemma FilesAreListed(rs: seq<Result>, disk: string -> Option<string>, files: map<string, FileState>, listed: seq<FileState>)
    requires FilesTold(rs, disk, files) && forall f :: f in listed <==> f.path in files && files[f.path] == f
    ensures forall p :: Touched(rs, p) <==> exists f :: f in listed && f.path == p
    ensures forall f :: f in listed ==> Tells(rs, disk, f)
  {
    hide Touched, Tells;
    forall p | Touched(rs, p)
      ensures exists f :: f in listed && f.path == p
    {
      assert files[p] in listed;
    }
  }

  lemma FileIsCited(rs: seq<Result>, disk: string -> Option<string>, f: FileState, r: Record,
                    cited: set<EvidenceId>, steps: set<nat>)
    requires Tells(rs, disk, f) && f.evidence in cited && r.evidence == KeptEvidence(AllEvidence(rs), cited, steps)
    ensures Cites(r, f.evidence)
  {
    var i: nat :|
      (LastWrite(rs, i, f.path) && f == WriteState(rs[i])) || (OnlyRead(rs, i, f.path) && f == ReadState(rs[i], disk));
    assert AllEvidence(rs)[i] in AllEvidence(rs) && AllEvidence(rs)[i].id == f.evidence;
  }

  lemma VerificationsAreCited(rs: seq<Result>, r: Record, cited: set<EvidenceId>, steps: set<nat>)
    requires r.verifications == LastOf(Verifications(rs), 5)
    requires forall v :: v in r.verifications ==> v.step in steps
    requires r.evidence == KeptEvidence(AllEvidence(rs), cited, steps)
    ensures forall v :: v in r.verifications ==> exists e :: e in r.evidence && e.tool == "bash" && e.id.step == v.step
  {
    LastAreIn(Verifications(rs), 5);
    forall v | v in r.verifications
      ensures exists e :: e in r.evidence && e.tool == "bash" && e.id.step == v.step
    {
      var i := VerificationHasEvidence(rs, v);
      var e := AllEvidence(rs)[i];
      assert e in AllEvidence(rs) && e.tool == "bash" && e.id.step == v.step;
    }
  }

  /** `disk` stands for the hashes of the files in the workspace. */
  method DeterministicHandoff(buffer: ContextBuffer, disk: string -> Option<string>) returns (r: Record)
    ensures Summarizes(Results(buffer.items), disk, r) && r.sourceSteps == Steps(buffer.items)
    ensures var rs := Results(buffer.items);
      exists vs, places :: VerifiedAt(rs, vs, places) && |r.verifications| == (if |vs| < 5 then |vs| else 5)
        && r.verifications == vs[|vs| - |r.verifications|..]
  {
    hide Summarizes, FilesTold;
    var items := buffer.items;
    var rs: seq<Result>, files: map<string, FileState> := [], map[];
    var verifications: seq<VerificationState>, stale: seq<EvidenceId>, steps: seq<nat> := [], [], [];
    NothingTold(disk);
    for i := 0 to |items|
      invariant rs == Results(items[..i]) && steps == Steps(items[..i]) && FilesTold(rs, disk, files)
      invariant verifications == Verifications(rs) && stale == StaleVerifications(rs)
    {
      assert items[..i + 1][..i] == items[..i];
      if items[i].ToolTurn? {
        steps := steps + [items[i].turn.step];
        rs, files, verifications, stale := CollectTurn(items[i].turn, disk, rs, files, verifications, stale);
      }
    }
    assert items[..|items|] == items;
    r := BuildRecord(rs, disk, files, verifications, stale, steps);
    ghost var places := VerificationsAreReported(rs);
    LastVerifications(rs, disk, r);
    assert VerifiedAt(rs, Verifications(rs), places);
  }

  lemma LastVerifications(rs: seq<Result>, disk: string -> Option<string>, r: Record)
    requires Summarizes(rs, disk, r)
    ensures var vs := Verifications(rs);
      |r.verifications| == (if |vs| < 5 then |vs| else 5) && r.verifications == vs[|vs| - |r.verifications|..]
  {
    hide *;
    SummarizedVerifications(rs, disk, r);
    LastOfMeans(Verifications(rs), 5);
  }

  lemma SummarizedVerifications(rs: seq<Result>, disk: string -> Option<string>, r: Record)
    requires Summarizes(rs, disk, r)
    ensures r.verifications == LastOf(Verifications(rs), 5)
  {
    hide Verifications, StaleVerifications, Touched, Tells, SortedByPath, ValidEvidence, IsSubsequence, Cites, AllEvidence, LastOf;
  }

  lemma LastOfMeans<T>(s: seq<T>, k: nat)
    ensures |LastOf(s, k)| == (if |s| < k then |s| else k) && LastOf(s, k) == s[|s| - |LastOf(s, k)|..]
  {
  }

  lemma NothingTold(disk: string -> Option<string>)
    ensures FilesTold([], disk, map[])
  {
  }

  /** One result: a write or a read tells about its file, a verification is listed. */
  method Collect(r: Result, disk: string -> Option<string>, ghost rs: seq<Result>, files: map<string, FileState>,
                 verifications: seq<VerificationState>, stale: seq<EvidenceId>)
    returns (files': map<string, FileState>, verifications': seq<VerificationState>, stale': seq<EvidenceId>)
    requires FilesTold(rs, disk, files) && verifications == Verifications(rs) && stale == StaleVerifications(rs)
    ensures FilesTold(rs + [r], disk, files')
    ensures verifications' == Verifications(rs + [r]) && stale' == StaleVerifications(rs + [r])
  {
    hide FilesTold;
    files', verifications', stale' := files, verifications, stale;
    FilesGrow(rs, disk, files, r);
    assert (rs + [r])[..|rs|] == rs;
    var path := r.obs.meta.path;
    if r.WritesTo(path) {
      files' := files'[path := WriteState(r)];
    } else if r.ReadsFrom(path) {
      if path !in files' { files' := files'[path := ReadState(r, disk)]; }
    } else if r.IsVerification() {
      if IsStale(r) { stale' := stale' + [r.Id()]; }
      verifications' := verifications' + [VerificationOf(r)];
    }
  }

  method CollectTurn(t: Turn, disk: string -> Option<string>, rs: seq<Result>, files: map<string, FileState>,
                     verifications: seq<VerificationState>, stale: seq<EvidenceId>)
    returns (rs': seq<Result>, files': map<string, FileState>, verifications': seq<VerificationState>, stale': seq<EvidenceId>)
    requires FilesTold(rs, disk, files) && verifications == Verifications(rs) && stale == StaleVerifications(rs)
    ensures rs' == rs + TurnResults(t, t.replies) && FilesTold(rs', disk, files')
    ensures verifications' == Verifications(rs') && stale' == StaleVerifications(rs')
  {
    hide FilesTold, Verifications, StaleVerifications;
    rs', files', verifications', stale' := rs, files, verifications, stale;
    for j := 0 to |t.replies|
      invariant rs' == rs + TurnResults(t, t.replies[..j]) && FilesTold(rs', disk, files')
      invariant verifications' == Verifications(rs') && stale' == StaleVerifications(rs')
    {
      assert t.replies[..j + 1][..j] == t.replies[..j];
      match t.replies[j].content {
        case Parsed(o) =>
          var r := Result(t.step, t.status == StaleTurn, o);
          files', verifications', stale' := Collect(r, disk, rs', files', verifications', stale');
          rs' := rs' + [r];
        case Raw(_) =>
      }
    }
    assert t.replies[..|t.replies|] == t.replies;
  }
}
