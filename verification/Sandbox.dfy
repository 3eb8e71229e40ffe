/** Paths of the sandbox: which roots to mount, and how host paths and sandbox paths correspond. */
module Sandbox {
  import opened Common

  /** An absolute path, by its components; the root is the empty path. */
  type Path = seq<string>

  predicate IsWithin(p: Path, root: Path) {
    root <= p
  }

  predicate CoveredBy(p: Path, roots: seq<Path>) {
    exists r :: r in roots && IsWithin(p, r)
  }

  lemma ProperRootIsShorter(p: Path, root: Path)
    requires IsWithin(p, root) && root != p
    ensures |root| < |p|
  {
    assert p == root + p[|root|..];
  }

  function Render(p: Path): string {
    if p == [] then "" else Render(p[..|p| - 1]) + "/" + p[|p| - 1]
  }

  /** Shorter paths first, then by their text. */
  predicate PathBefore(a: Path, b: Path) {
    |a| < |b| || (|a| == |b| && StringLess(Render(a), Render(b)))
  }

  ghost predicate SortedPaths(ps: seq<Path>) {
    forall i, j :: 0 <= i < j < |ps| ==> !PathBefore(ps[j], ps[i])
  }

  lemma BeforeIsTransitive(a: Path, b: Path, c: Path)
    requires !PathBefore(b, a) && !PathBefore(c, b)
    ensures !PathBefore(c, a)
  {
    if |a| == |b| == |c| && StringLess(Render(c), Render(a)) {
      StringLessIsStrict(Render(a), Render(b));
      StringLessIsStrict(Render(b), Render(c));
      if Render(a) != Render(b) && Render(b) != Render(c) {
        StringLessIsTransitive(Render(a), Render(b), Render(c));
        StringLessIsStrict(Render(a), Render(c));
      }
    }
  }

  method InsertPath(ps: seq<Path>, p: Path) returns (r: seq<Path>)
    requires SortedPaths(ps) && Distinct(ps)
    ensures SortedPaths(r) && Distinct(r) && forall q :: q in r <==> q in ps || q == p
  {
    if p in ps { return ps; }
    var i := 0;
    while i < |ps| && !PathBefore(p, ps[i])
      invariant i <= |ps| && forall j :: 0 <= j < i ==> !PathBefore(p, ps[j])
    {
      i := i + 1;
    }
    InsertedIsSorted(ps, p, i);
    r := ps[..i] + [p] + ps[i..];
    assert ps == ps[..i] + ps[i..];
  }

  lemma InsertedIsSorted(ps: seq<Path>, p: Path, i: nat)
    requires SortedPaths(ps) && i <= |ps| && (forall j :: 0 <= j < i ==> !PathBefore(p, ps[j]))
    requires i < |ps| ==> PathBefore(p, ps[i])
    ensures SortedPaths(ps[..i] + [p] + ps[i..])
  {
    forall k | i <= k < |ps|
      ensures !PathBefore(ps[k], p)
    {
      StringLessIsStrict(Render(p), Render(ps[i]));
      if i < k { BeforeIsTransitive(p, ps[i], ps[k]); }
    }
  }

  method SortPaths(paths: seq<Path>) returns (r: seq<Path>)
    ensures SortedPaths(r) && Distinct(r) && forall q :: q in r <==> q in paths
  {
    r := [];
    for i := 0 to |paths|
      invariant SortedPaths(r) && Distinct(r) && forall q :: q in r <==> q in paths[..i]
    {
      assert paths[..i + 1] == paths[..i] + [paths[i]];
      r := InsertPath(r, paths[i]);
    }
    assert paths[..|paths|] == paths;
  }

  // ---- Minimal roots ----

  /** The paths that lie within no other one of the list. */
  predicate IsMinimal(p: Path, paths: seq<Path>) {
    p in paths && forall q :: q in paths && IsWithin(p, q) ==> q == p
  }

  ghost predicate Antichain(roots: seq<Path>) {
    forall a, b :: a in roots && b in roots && IsWithin(a, b) ==> a == b
  }

  /** The minimal ones among the first `i` paths of the sorted list. */
  ghost predicate RootsOf(sorted: seq<Path>, i: nat, roots: seq<Path>) {
    && i <= |sorted|
    && (forall p :: p in roots <==> p in sorted[..i] && IsMinimal(p, sorted))
    && (forall j :: 0 <= j < i ==> CoveredBy(sorted[j], roots))
    && Distinct(roots) && SortedPaths(roots)
  }

  lemma OneMoreRoot(sorted: seq<Path>, i: nat, roots: seq<Path>)
    requires SortedPaths(sorted) && Distinct(sorted) && i < |sorted| && RootsOf(sorted, i, roots)
    ensures RootsOf(sorted, i + 1, if CoveredBy(sorted[i], roots) then roots else roots + [sorted[i]])
  {
    var p := sorted[i];
    assert sorted[..i + 1] == sorted[..i] + [p];
    CoveredIffNotMinimal(sorted, i, roots);
    if !CoveredBy(p, roots) {
      var longer := roots + [p];
      assert longer[|roots|] == p && IsWithin(p, p) && p in longer;
      assert forall q :: q in roots ==> q in longer;
      forall j | 0 <= j < |roots|
        ensures !PathBefore(p, roots[j]) && roots[j] != p
      {
        assert roots[j] in roots && roots[j] in sorted[..i];
      }
    }
  }

  method MinimalRoots(paths: seq<Path>) returns (roots: seq<Path>)
    ensures forall p :: p in roots <==> IsMinimal(p, paths)
    ensures Distinct(roots) && SortedPaths(roots)
  {
    var sorted := SortPaths(paths);
    roots := [];
    for i := 0 to |sorted|
      invariant RootsOf(sorted, i, roots)
    {
      OneMoreRoot(sorted, i, roots);
      if !CoveredBy(sorted[i], roots) { roots := roots + [sorted[i]]; }
    }
    assert sorted[..|sorted|] == sorted;
    SameMinimal(sorted, paths);
  }

  /** A path of a sorted list is covered by the earlier minimal ones exactly when it is not minimal. */
  lemma CoveredIffNotMinimal(sorted: seq<Path>, i: nat, roots: seq<Path>)
    requires i < |sorted| && SortedPaths(sorted) && Distinct(sorted)
    requires forall p :: p in roots <==> p in sorted[..i] && IsMinimal(p, sorted)
    requires forall j :: 0 <= j < i ==> CoveredBy(sorted[j], roots)
    ensures CoveredBy(sorted[i], roots) <==> !IsMinimal(sorted[i], sorted)
  {
    hide Render, StringLess;
    if CoveredBy(sorted[i], roots) {
      var r :| r in roots && IsWithin(sorted[i], r);
      assert r in sorted[..i];
    }
    if !IsMinimal(sorted[i], sorted) {
      var q :| q in sorted && IsWithin(sorted[i], q) && q != sorted[i];
      ProperRootIsShorter(sorted[i], q);
      var j :| 0 <= j < |sorted| && sorted[j] == q;
      assert j < i;
      var r :| r in roots && IsWithin(q, r);
      assert IsWithin(sorted[i], r);
    }
  }

  lemma SameMinimal(a: seq<Path>, b: seq<Path>)
    requires forall q :: q in a <==> q in b
    ensures forall p :: IsMinimal(p, a) <==> IsMinimal(p, b)
  {
  }

  /** The minimal paths cover every path, and none covers another. */
  lemma MinimalRootsCover(paths: seq<Path>, roots: seq<Path>)
    requires forall p :: p in roots <==> IsMinimal(p, paths)
    ensures Antichain(roots) && (forall p :: p in roots ==> p in paths)
    ensures forall p :: p in paths ==> CoveredBy(p, roots)
  {
    forall p | p in paths
      ensures CoveredBy(p, roots)
    {
      var r := Shortest(paths, p);
      assert r in roots;
    }
  }

  /** A minimal path above this one. */
  lemma {:induction false} Shortest(paths: seq<Path>, p: Path) returns (r: Path)
    requires p in paths
    ensures IsMinimal(r, paths) && IsWithin(p, r)
    decreases |p|
  {
    if IsMinimal(p, paths) {
      r := p;
    } else {
      var q :| q in paths && IsWithin(p, q) && q != p;
      ProperRootIsShorter(p, q);
      r := Shortest(paths, q);
    }
  }

  /** They are the only antichain of these paths that covers them all. */
  lemma MinimalRootsAreUnique(paths: seq<Path>, roots: seq<Path>)
    requires Antichain(roots) && (forall p :: p in roots ==> p in paths) && (forall p :: p in paths ==> CoveredBy(p, roots))
    ensures forall p :: p in roots <==> IsMinimal(p, paths)
  {
    forall p | p in roots
      ensures IsMinimal(p, paths)
    {
      forall q | q in paths && IsWithin(p, q)
        ensures q == p
      {
        var r :| r in roots && IsWithin(q, r);
        assert IsWithin(p, r);
      }
    }
    forall p | IsMinimal(p, paths)
      ensures p in roots
    {
      var r :| r in roots && IsWithin(p, r);
    }
  }

  // ---- Host paths and sandbox paths ----

  const VENV_ROOT: Path := ["opt", "longrun", "runtime", "venv"]
  const BASE_ROOT: Path := ["opt", "longrun", "runtime", "python-base"]
  const WORKSPACE: Path := ["workspace"]

  datatype Plan = Plan(prefix: Path, basePrefix: Path, systemRoots: seq<Path>)

  function Relative(p: Path, root: Path): Path
    requires IsWithin(p, root)
  {
    p[|root|..]
  }

  function HostToSandbox(plan: Plan, p: Path, workspace: Option<Path>): Option<Path> {
    if IsWithin(p, plan.prefix) then Some(VENV_ROOT + Relative(p, plan.prefix))
    else if IsWithin(p, plan.basePrefix) then Some(BASE_ROOT + Relative(p, plan.basePrefix))
    else if workspace.Some? && IsWithin(p, workspace.value) then Some(WORKSPACE + Relative(p, workspace.value))
    else if CoveredBy(p, plan.systemRoots) then Some(p)
    else None
  }

  function SandboxToHost(plan: Plan, s: Path): Option<Path> {
    if IsWithin(s, VENV_ROOT) then Some(plan.prefix + Relative(s, VENV_ROOT))
    else if IsWithin(s, BASE_ROOT) then Some(plan.basePrefix + Relative(s, BASE_ROOT))
    else None
  }

  lemma RootsApart(rest: Path)
    ensures !IsWithin(BASE_ROOT + rest, VENV_ROOT) && Relative(BASE_ROOT + rest, BASE_ROOT) == rest
    ensures Relative(VENV_ROOT + rest, VENV_ROOT) == rest
  {
    assert (BASE_ROOT + rest)[3] == "python-base" && VENV_ROOT[3] == "venv";
  }

  /** Every runtime path comes back, however the two prefixes are nested. */
  lemma RuntimePathsComeBack(plan: Plan, p: Path, workspace: Option<Path>)
    requires IsWithin(p, plan.prefix) || IsWithin(p, plan.basePrefix)
    ensures var s := HostToSandbox(plan, p, workspace); s.Some? && SandboxToHost(plan, s.value) == Some(p)
  {
    if IsWithin(p, plan.prefix) {
      RootsApart(Relative(p, plan.prefix));
      assert plan.prefix + Relative(p, plan.prefix) == p;
    } else {
      RootsApart(Relative(p, plan.basePrefix));
      assert plan.basePrefix + Relative(p, plan.basePrefix) == p;
    }
  }

  /** The other way round a path returns exactly unless it names, below the base, something inside the prefix. */
  lemma SandboxPathsComeBack(plan: Plan, s: Path, workspace: Option<Path>)
    requires SandboxToHost(plan, s).Some?
    ensures HostToSandbox(plan, SandboxToHost(plan, s).value, workspace) == Some(s) <==>
            IsWithin(s, VENV_ROOT) || !IsWithin(SandboxToHost(plan, s).value, plan.prefix)
  {
    var p := SandboxToHost(plan, s).value;
    if IsWithin(s, VENV_ROOT) {
      assert Relative(p, plan.prefix) == Relative(s, VENV_ROOT);
      assert VENV_ROOT + Relative(s, VENV_ROOT) == s;
    } else {
      assert Relative(p, plan.basePrefix) == Relative(s, BASE_ROOT);
      assert BASE_ROOT + Relative(s, BASE_ROOT) == s;
      if IsWithin(p, plan.prefix) { assert IsWithin(VENV_ROOT + Relative(p, plan.prefix), VENV_ROOT); }
    }
  }

  /** With the prefix inside the base prefix such a path exists. */
  lemma NestedPrefixDoesNotComeBack(plan: Plan, inner: string, rest: Path, workspace: Option<Path>)
    requires plan.prefix == plan.basePrefix + [inner]
    ensures var s := BASE_ROOT + [inner] + rest;
      && SandboxToHost(plan, s) == Some(plan.prefix + rest)
      && HostToSandbox(plan, plan.prefix + rest, workspace) == Some(VENV_ROOT + rest)
      && VENV_ROOT + rest != s
  {
    var s := BASE_ROOT + [inner] + rest;
    assert s == BASE_ROOT + ([inner] + rest);
    RootsApart([inner] + rest);
    assert plan.basePrefix + ([inner] + rest) == plan.prefix + rest;
    assert (plan.prefix + rest)[|plan.prefix|..] == rest;
  }

  /** Distinct runtime paths never share a sandbox path. */
  lemma RuntimePathsStayApart(plan: Plan, p: Path, q: Path, workspace: Option<Path>)
    requires IsWithin(p, plan.prefix) || IsWithin(p, plan.basePrefix)
    requires IsWithin(q, plan.prefix) || IsWithin(q, plan.basePrefix)
    requires HostToSandbox(plan, p, workspace) == HostToSandbox(plan, q, workspace)
    ensures p == q
  {
    RuntimePathsComeBack(plan, p, workspace);
    RuntimePathsComeBack(plan, q, workspace);
  }

  // ---- The mount skeleton ----

  /** A directory above a target, other than the root and the target itself. */
  predicate IsAncestor(a: Path, target: Path) {
    a != [] && a < target
  }

  ghost predicate NeedsMount(p: Path, targets: seq<Path>) {
    p !in targets && exists t :: t in targets && IsAncestor(p, t)
  }

  method MountParents(targets: seq<Path>) returns (r: seq<Path>)
    ensures forall p :: p in r <==> NeedsMount(p, targets)
    ensures Distinct(r) && SortedPaths(r)
  {
    var parents: seq<Path> := [];
    for i := 0 to |targets|
      invariant forall p :: p in parents <==> p !in targets && exists t :: t in targets[..i] && IsAncestor(p, t)
    {
      assert targets[..i + 1] == targets[..i] + [targets[i]];
      var target := targets[i];
      var n := |target|;
      ghost var before := parents;
      while n > 1
        invariant n <= |target|
        invariant forall p :: p in parents <==> p in before || (p !in targets && IsAncestor(p, target) && |p| >= n)
        decreases n
      {
        n := n - 1;
        var parent := target[..n];
        if parent !in targets && parent !in parents { parents := parents + [parent]; }
        assert forall p :: IsAncestor(p, target) && |p| == n ==> p == parent;
      }
      assert forall p :: IsAncestor(p, target) ==> |p| >= 1;
    }
    assert targets[..|targets|] == targets;
    r := SortPaths(parents);
  }

  /** Every directory above a target is in the skeleton or is a target, and parents are made first. */
  lemma ParentsComeFirst(targets: seq<Path>, r: seq<Path>, i: nat, a: Path)
    requires (forall p :: p in r <==> NeedsMount(p, targets)) && Distinct(r) && SortedPaths(r)
    requires i < |r| && IsAncestor(a, r[i]) && a !in targets
    ensures exists j :: 0 <= j < i && r[j] == a
  {
    assert r[i] in r && NeedsMount(r[i], targets);
    var t :| t in targets && IsAncestor(r[i], t);
    assert IsAncestor(a, t);
    assert NeedsMount(a, targets);
    var j :| 0 <= j < |r| && r[j] == a;
    assert PathBefore(a, r[i]);
  }

  // ---- Symbolic links ----

  /** What the file system says about a path: `target` is where a link leads, `leads` whether something is there. */
  datatype FileSystem = FileSystem(
    present: Path -> bool, isLink: Path -> bool, target: Path -> Path, leads: Path -> bool, resolved: Path -> Path)

  /** May the chain go on from this link? */
  predicate Follows(fs: FileSystem, roots: seq<Path>, p: Path) {
    fs.present(p) && fs.isLink(p) && fs.leads(p) && CoveredBy(fs.resolved(p), roots)
  }

  /** The path after `n` links. */
  function Hop(fs: FileSystem, p: Path, n: nat): Path {
    if n == 0 then p else fs.target(Hop(fs, p, n - 1))
  }

  ghost predicate EndsAfter(fs: FileSystem, roots: seq<Path>, p: Path, n: nat) {
    && (forall k: nat {:trigger Hop(fs, p, k)} :: k < n ==> Follows(fs, roots, Hop(fs, p, k)))
    && fs.present(Hop(fs, p, n)) && !fs.isLink(Hop(fs, p, n))
  }

  lemma {:induction false} SameHopsLater(fs: FileSystem, p: Path, i: nat, j: nat, d: nat)
    requires Hop(fs, p, i) == Hop(fs, p, j)
    ensures Hop(fs, p, i + d) == Hop(fs, p, j + d)
  {
    if d > 0 { SameHopsLater(fs, p, i, j, d - 1); }
  }

  /** A chain that visits a path twice never ends. */
  lemma {:induction false} CycleNeverEnds(fs: FileSystem, roots: seq<Path>, p: Path, i: nat, j: nat, n: nat)
    requires i < j && Hop(fs, p, i) == Hop(fs, p, j)
    requires forall k: nat :: k < j ==> Follows(fs, roots, Hop(fs, p, k))
    ensures !EndsAfter(fs, roots, p, n)
    decreases n
  {
    if n >= j {
      SameHopsLater(fs, p, i, j, n - j);
      var m: nat := n - (j - i);
      CycleNeverEnds(fs, roots, p, i, j, m);
      assert EndsAfter(fs, roots, p, n) ==> EndsAfter(fs, roots, p, m);
    } else {
      assert Follows(fs, roots, Hop(fs, p, n));
    }
  }

  /** A chain ends in one way only. */
  lemma OneEnd(fs: FileSystem, roots: seq<Path>, p: Path, m: nat, n: nat)
    requires EndsAfter(fs, roots, p, m) && EndsAfter(fs, roots, p, n)
    ensures m == n
  {
    assert m < n ==> Follows(fs, roots, Hop(fs, p, m));
    assert n < m ==> Follows(fs, roots, Hop(fs, p, n));
  }

  /** A link and where it leads, on the host and in the sandbox. */
  datatype LinkHop = LinkHop(link: Path, target: Path, resolved: Path, sandboxLink: Option<Path>, sandboxTarget: Option<Path>)

  function SandboxTarget(fs: FileSystem, plan: Plan, p: Path): Option<Path> {
    var named := HostToSandbox(plan, fs.target(p), None);
    if named.None? && fs.leads(p) then HostToSandbox(plan, fs.resolved(p), None) else named
  }

  function LinkAt(fs: FileSystem, plan: Plan, p: Path): LinkHop {
    LinkHop(p, fs.target(p), fs.resolved(p), HostToSandbox(plan, p, None), SandboxTarget(fs, plan, p))
  }

  ghost predicate RuntimeRoots(plan: Plan, roots: seq<Path>) {
    forall p :: p in roots <==> IsMinimal(p, [plan.prefix, plan.basePrefix])
  }

  /** A link the chain may follow leads somewhere inside the sandbox. */
  lemma FollowedHasTarget(fs: FileSystem, plan: Plan, runtimeRoots: seq<Path>, p: Path)
    requires RuntimeRoots(plan, runtimeRoots) && Follows(fs, runtimeRoots + plan.systemRoots, p)
    ensures SandboxTarget(fs, plan, p).Some?
  {
    var q := fs.resolved(p);
    var r :| r in runtimeRoots + plan.systemRoots && IsWithin(q, r);
    if r in runtimeRoots {
      assert IsMinimal(r, [plan.prefix, plan.basePrefix]) && (r == plan.prefix || r == plan.basePrefix);
    } else {
      assert CoveredBy(q, plan.systemRoots);
    }
  }

  /** The chain could be followed so far, over these links. */
  ghost predicate Walked(fs: FileSystem, plan: Plan, roots: seq<Path>, start: Path, seen: seq<Path>, hops: seq<LinkHop>) {
    && |hops| == |seen|
    && (forall k :: 0 <= k < |seen| ==> seen[k] == Hop(fs, start, k) && hops[k] == LinkAt(fs, plan, Hop(fs, start, k)))
    && (forall k: nat {:trigger Hop(fs, start, k)} :: k < |seen| ==> Follows(fs, roots, Hop(fs, start, k)))
  }

  lemma WalkOneMore(fs: FileSystem, plan: Plan, roots: seq<Path>, start: Path, seen: seq<Path>, hops: seq<LinkHop>)
    requires Walked(fs, plan, roots, start, seen, hops) && Follows(fs, roots, Hop(fs, start, |seen|))
    ensures var p := Hop(fs, start, |seen|); Walked(fs, plan, roots, start, seen + [p], hops + [LinkAt(fs, plan, p)])
  {
    hide Follows, LinkAt;
  }

  /** The links from `start` on; `None` for a broken, uncovered, cyclic or too long chain. */
  method ResolveChain(fs: FileSystem, plan: Plan, runtimeRoots: seq<Path>, start: Path, maxDepth: nat)
    returns (chain: Option<seq<LinkHop>>)
    requires RuntimeRoots(plan, runtimeRoots)
    ensures chain.Some? <==> exists n: nat :: n < maxDepth && EndsAfter(fs, runtimeRoots + plan.systemRoots, start, n)
    ensures chain.Some? ==> forall n: nat :: EndsAfter(fs, runtimeRoots + plan.systemRoots, start, n) <==> n == |chain.value|
    ensures chain.Some? ==> forall k :: 0 <= k < |chain.value| ==>
              chain.value[k] == LinkAt(fs, plan, Hop(fs, start, k)) && chain.value[k].sandboxTarget.Some?
  {
    hide EndsAfter, CoveredBy, LinkAt, RuntimeRoots, Walked;
    ghost var roots := runtimeRoots + plan.systemRoots;
    var hops: seq<LinkHop>, seen: seq<Path> := [], [];
    var current := start;
    StartsWalk(fs, plan, roots, start);
    for depth := 0 to maxDepth
      invariant |seen| == depth && current == Hop(fs, start, depth) && Walked(fs, plan, roots, start, seen, hops)
    {
      WalkNotEnded(fs, plan, roots, start, seen, hops);
      if !fs.present(current) { return None; }
      if !fs.isLink(current) {
        WalkEnds(fs, plan, runtimeRoots, start, seen, hops);
        return Some(hops);
      }
      if current in seen {
        SeenTwice(fs, plan, roots, start, seen, hops);
        return None;
      }
      ghost var was, links := seen, hops;
      seen := seen + [current];
      hops := hops + [LinkAt(fs, plan, current)];
      if !fs.leads(current) { return None; }
      if !CoveredBy(fs.resolved(current), runtimeRoots + plan.systemRoots) { return None; }
      WalkOneMore(fs, plan, roots, start, was, links);
      current := fs.target(current);
    }
    WalkNotEnded(fs, plan, roots, start, seen, hops);
    return None;
  }

  lemma StartsWalk(fs: FileSystem, plan: Plan, roots: seq<Path>, start: Path)
    ensures Walked(fs, plan, roots, start, [], [])
  {
  }

  lemma SeenTwice(fs: FileSystem, plan: Plan, roots: seq<Path>, start: Path, seen: seq<Path>, hops: seq<LinkHop>)
    requires Walked(fs, plan, roots, start, seen, hops) && Hop(fs, start, |seen|) in seen
    ensures forall n: nat :: !EndsAfter(fs, roots, start, n)
  {
    hide LinkAt;
    var i :| 0 <= i < |seen| && seen[i] == Hop(fs, start, |seen|);
    forall n: nat
      ensures !EndsAfter(fs, roots, start, n)
    {
      CycleNeverEnds(fs, roots, start, i, |seen|, n);
    }
  }

  /** A walk that comes to something other than a link is the chain, and the only one. */
  lemma WalkEnds(fs: FileSystem, plan: Plan, runtimeRoots: seq<Path>, start: Path, seen: seq<Path>, hops: seq<LinkHop>)
    requires RuntimeRoots(plan, runtimeRoots) && Walked(fs, plan, runtimeRoots + plan.systemRoots, start, seen, hops)
    requires fs.present(Hop(fs, start, |seen|)) && !fs.isLink(Hop(fs, start, |seen|))
    ensures |hops| == |seen| && EndsAfter(fs, runtimeRoots + plan.systemRoots, start, |hops|)
    ensures forall n: nat :: EndsAfter(fs, runtimeRoots + plan.systemRoots, start, n) <==> n == |hops|
    ensures forall k :: 0 <= k < |hops| ==> hops[k] == LinkAt(fs, plan, Hop(fs, start, k)) && hops[k].sandboxTarget.Some?
  {
    hide CoveredBy, SandboxTarget;
    var roots := runtimeRoots + plan.systemRoots;
    assert EndsAfter(fs, roots, start, |hops|);
    forall n: nat | EndsAfter(fs, roots, start, n)
      ensures n == |hops|
    {
      OneEnd(fs, roots, start, |hops|, n);
    }
    forall k | 0 <= k < |hops|
      ensures hops[k].sandboxTarget.Some?
    {
      FollowedHasTarget(fs, plan, runtimeRoots, Hop(fs, start, k));
    }
  }

  /** The chain has not ended before, and where it cannot be followed it never ends later. */
  lemma WalkNotEnded(fs: FileSystem, plan: Plan, roots: seq<Path>, start: Path, seen: seq<Path>, hops: seq<LinkHop>)
    requires Walked(fs, plan, roots, start, seen, hops)
    ensures forall n: nat :: n < |seen| ==> !EndsAfter(fs, roots, start, n)
    ensures forall n: nat :: n > |seen| && EndsAfter(fs, roots, start, n) ==> Follows(fs, roots, Hop(fs, start, |seen|))
    ensures EndsAfter(fs, roots, start, |seen|) ==> fs.present(Hop(fs, start, |seen|)) && !fs.isLink(Hop(fs, start, |seen|))
  {
    hide LinkAt;
    forall n: nat | n < |seen|
      ensures !EndsAfter(fs, roots, start, n)
    {
      assert Follows(fs, roots, Hop(fs, start, n));
    }
  }
}
