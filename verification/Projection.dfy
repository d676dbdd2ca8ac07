/**
 From a manifest and its lock to paths: mount roots, the projection plan, the
 unlock plan, and the way back from a scanned path to its root and layer.
 Layer and repository names are single path segments, so `/` appends one.
 */
module Projection {
  import opened Wrappers
  import opened Manifests

  type Path = seq<string>

  datatype MountRoot = Community | Enterprise | Worktrees | Custom(folder: string)

  type Roots = map<MountRoot, Path>

  type Naming = string -> string

  const CONTAINER_MOUNT_BASE: Path := ["mnt"]

  function Folder(category: string): string {
    if category == "custom" then "default" else category
  }

  function RootPath(base: Path, r: MountRoot): Path {
    match r
    case Community => base + ["community"]
    case Enterprise => base + ["enterprise"]
    case Worktrees => base + ["worktrees"]
    case Custom(f) => base + ["custom", f]
  }

  function KnownRoots(m: Manifest): set<MountRoot> {
    {Community, Enterprise, Worktrees} + set l | l in m.layers :: Custom(Folder(l.category))
  }

  function BuildMountRoots(base: Path, m: Manifest): Roots {
    map r | r in KnownRoots(m) :: RootPath(base, r)
  }

  /** `classify_root` of the layer that goes by `name`; the worktree root is never classified to. */
  function RootOf(m: Manifest, name: string): (r: Option<MountRoot>)
    ensures r.Some? ==> r.value in KnownRoots(m) && r.value != Worktrees
  {
    var l := LayerNamed(m.layers, name);
    if l.Some? then Some(Custom(Folder(l.value.category)))
    else if name == "enterprise" && m.enterprise.Some? then Some(Enterprise)
    else if name == "core" then Some(Community)
    else None
  }

  // ------------------------------------------------------------------------
  // plan_projection
  // ------------------------------------------------------------------------

  datatype Step = Step(root: MountRoot, layer: string, url: string, commit: string, target: Path)

  /** Where a repository is checked out, and where its writable copy goes. */
  function Target(base: Path, root: MountRoot, layer: string, name: string): Path {
    RootPath(base, root) + [layer, name]
  }

  function StepFor(base: Path, naming: Naming, root: MountRoot, layer: string, r: ResolvedRepo): Step {
    Step(root, layer, r.url, r.commit, Target(base, root, layer, naming(r.url)))
  }

  function LayerSteps(base: Path, naming: Naming, root: MountRoot, l: ResolvedLayer): seq<Step> {
    seq(|l.repos|, j requires 0 <= j < |l.repos| => StepFor(base, naming, root, l.name, l.repos[j]))
  }

  predicate Classified(m: Manifest, ls: seq<ResolvedLayer>) {
    forall l :: l in ls ==> RootOf(m, l.name).Some?
  }

  function Steps(m: Manifest, base: Path, naming: Naming, ls: seq<ResolvedLayer>): seq<Step>
    requires Classified(m, ls)
  {
    if ls == [] then [] else
      var l := ls[|ls| - 1];
      Steps(m, base, naming, ls[..|ls| - 1]) + LayerSteps(base, naming, RootOf(m, l.name).value, l)
  }

  function Plan(m: Manifest, base: Path, naming: Naming, lock: Lock): Option<seq<Step>> {
    if Classified(m, lock.gitLayers) then Some(Steps(m, base, naming, lock.gitLayers)) else None
  }

  method PlanLayer(base: Path, naming: Naming, roots: Roots, root: MountRoot, l: ResolvedLayer)
    returns (steps: seq<Step>)
    requires root in roots && roots[root] == RootPath(base, root)
    ensures steps == LayerSteps(base, naming, root, l)
  {
    steps := [];
    for j := 0 to |l.repos|
      invariant |steps| == j && forall k :: 0 <= k < j ==> steps[k] == StepFor(base, naming, root, l.name, l.repos[k])
    {
      var repo := l.repos[j];
      steps := steps + [Step(root, l.name, repo.url, repo.commit, roots[root] + [l.name, naming(repo.url)])];
    }
  }

  /** One step per locked repository, in lock order; an orphaned locked layer leaves no partial plan. */
  method PlanProjection(m: Manifest, base: Path, naming: Naming, lock: Lock) returns (r: Option<seq<Step>>)
    ensures r == Plan(m, base, naming, lock)
  {
    var roots := BuildMountRoots(base, m);
    var steps := [];
    for i := 0 to |lock.gitLayers|
      invariant Classified(m, lock.gitLayers[..i])
      invariant steps == Steps(m, base, naming, lock.gitLayers[..i])
    {
      var l := lock.gitLayers[i];
      assert lock.gitLayers[..i + 1] == lock.gitLayers[..i] + [l];
      var root := RootOf(m, l.name);
      if root.None? {
        assert l in lock.gitLayers;
        return None;
      }
      var added := PlanLayer(base, naming, roots, root.value, l);
      steps := steps + added;
      assert lock.gitLayers[..i + 1][..i] == lock.gitLayers[..i];
    }
    assert lock.gitLayers[..|lock.gitLayers|] == lock.gitLayers;
    return Some(steps);
  }

  /** `s` projects repository `j` of locked layer `i`. */
  predicate Projects(m: Manifest, base: Path, naming: Naming, ls: seq<ResolvedLayer>, s: Step, i: nat, j: nat) {
    && i < |ls| && j < |ls[i].repos| && RootOf(m, ls[i].name).Some?
    && s == StepFor(base, naming, RootOf(m, ls[i].name).value, ls[i].name, ls[i].repos[j])
  }

  lemma {:induction false} StepIsProjected(m: Manifest, base: Path, naming: Naming, ls: seq<ResolvedLayer>, s: Step)
    returns (i: nat, j: nat)
    requires Classified(m, ls) && s in Steps(m, base, naming, ls)
    ensures Projects(m, base, naming, ls, s, i, j)
    decreases |ls|
  {
    var l := ls[|ls| - 1];
    if s in Steps(m, base, naming, ls[..|ls| - 1]) {
      i, j := StepIsProjected(m, base, naming, ls[..|ls| - 1], s);
    } else {
      i := |ls| - 1;
      j :| 0 <= j < |l.repos| && LayerSteps(base, naming, RootOf(m, l.name).value, l)[j] == s;
    }
  }

  lemma {:induction false} ProjectedIsStep(
    m: Manifest, base: Path, naming: Naming, ls: seq<ResolvedLayer>, s: Step, i: nat, j: nat)
    requires Classified(m, ls) && Projects(m, base, naming, ls, s, i, j)
    ensures s in Steps(m, base, naming, ls)
    decreases |ls|
  {
    var l := ls[|ls| - 1];
    if i == |ls| - 1 {
      assert LayerSteps(base, naming, RootOf(m, l.name).value, l)[j] == s;
    } else {
      ProjectedIsStep(m, base, naming, ls[..|ls| - 1], s, i, j);
    }
  }

  // ------------------------------------------------------------------------
  // Distinctness
  // ------------------------------------------------------------------------

  /** No two repositories of an entry would share a directory. */
  predicate NamesDistinct(naming: Naming, e: GitEntry) {
    forall j, k :: 0 <= j < k < |e.repos| ==> naming(e.repos[j].url) != naming(e.repos[k].url)
  }

  /** What is asked of a manifest: distinct layer names that are not reserved, and distinct directories. */
  ghost predicate WellNamed(m: Manifest, naming: Naming) {
    && (forall i, j :: 0 <= i < j < |m.layers| ==> m.layers[i].name != m.layers[j].name)
    && (forall l :: l in m.layers ==> l.name != "core" && l.name != "enterprise")
    && (forall l :: l in m.layers && l.Git? ==> NamesDistinct(naming, EffectiveEntry(m, l)))
  }

  ghost predicate EntriesDistinct(naming: Naming, es: seq<GitEntry>) {
    && (forall i, j :: 0 <= i < j < |es| ==> es[i].name != es[j].name)
    && (forall e :: e in es ==> NamesDistinct(naming, e))
  }

  lemma {:induction false} LayerEntriesFrom(m: Manifest, n: nat)
    requires n <= |m.layers|
    ensures forall e :: e in LayerEntries(m, n) ==>
      exists i :: 0 <= i < n && m.layers[i].Git? && e == EffectiveEntry(m, m.layers[i])
  {
    if n > 0 { LayerEntriesFrom(m, n - 1); }
  }

  lemma {:induction false} LayerEntriesNamed(m: Manifest, naming: Naming, n: nat)
    requires WellNamed(m, naming) && n <= |m.layers|
    ensures EntriesDistinct(naming, LayerEntries(m, n))
  {
    if n > 0 {
      LayerEntriesFrom(m, n - 1);
      LayerEntriesNamed(m, naming, n - 1);
      assert m.layers[n - 1] in m.layers;
      var before := LayerEntries(m, n - 1);
      forall i | 0 <= i < |before| ensures before[i].name != m.layers[n - 1].name {
        assert before[i] in before;
      }
    }
  }

  lemma ExpectedDistinct(m: Manifest, naming: Naming)
    requires WellNamed(m, naming)
    ensures EntriesDistinct(naming, ExpectedGit(m))
  {
    LayerEntriesNamed(m, naming, |m.layers|);
    LayerEntriesFrom(m, |m.layers|);
    forall e | e in LayerEntries(m, |m.layers|) ensures e.name != "core" && e.name != "enterprise" {
      var i :| 0 <= i < |m.layers| && m.layers[i].Git? && e == EffectiveEntry(m, m.layers[i]);
      assert m.layers[i] in m.layers;
    }
  }

  /** Two steps never share both layer and directory name. */
  ghost predicate SeparateSteps(naming: Naming, steps: seq<Step>) {
    forall p, q :: 0 <= p < q < |steps| ==>
      steps[p].layer != steps[q].layer || naming(steps[p].url) != naming(steps[q].url)
  }

  lemma LayerIsSeparate(base: Path, naming: Naming, before: seq<Step>, root: MountRoot, l: ResolvedLayer)
    requires SeparateSteps(naming, before) && NamesDistinct(naming, Strip(l))
    requires forall s :: s in before ==> s.layer != l.name
    ensures SeparateSteps(naming, before + LayerSteps(base, naming, root, l))
  {
    var last := LayerSteps(base, naming, root, l);
    var all: seq<Step> := before + last;
    forall p, q | 0 <= p < q < |all|
      ensures all[p].layer != all[q].layer || naming(all[p].url) != naming(all[q].url)
    {
      if p >= |before| {
        var e := Strip(l);
        assert e.repos[p - |before|].url == all[p].url && e.repos[q - |before|].url == all[q].url;
      } else if q >= |before| {
        assert all[p] in before;
      }
    }
  }

  lemma {:induction false} StepsAreSeparate(m: Manifest, base: Path, naming: Naming, ls: seq<ResolvedLayer>)
    requires Classified(m, ls) && EntriesDistinct(naming, StripAll(ls))
    ensures SeparateSteps(naming, Steps(m, base, naming, ls))
    decreases |ls|
  {
    if ls != [] {
      var init, l := ls[..|ls| - 1], ls[|ls| - 1];
      assert StripAll(init) == StripAll(ls)[..|ls| - 1];
      StepsAreSeparate(m, base, naming, init);
      assert StripAll(ls)[|ls| - 1] in StripAll(ls);
      forall s | s in Steps(m, base, naming, init) ensures s.layer != l.name {
        var i, j := StepIsProjected(m, base, naming, init, s);
        assert StripAll(ls)[i].name == s.layer && StripAll(ls)[|ls| - 1].name == l.name;
      }
      LayerIsSeparate(base, naming, Steps(m, base, naming, init), RootOf(m, l.name).value, l);
    }
  }

  // ------------------------------------------------------------------------
  // plan_unlock
  // ------------------------------------------------------------------------

  datatype UnlockPlan = UnlockPlan(source: Path, dest: Path, branch: string)

  datatype UnlockError = NoSuchLayer | NoSuchRepo

  /** The urls that the layer named `name` declares, before any override. */
  function DeclaredUrls(m: Manifest, name: string): seq<string> {
    var l := LayerNamed(m.layers, name);
    if l.Some? then
      if l.value.Git? then seq(|l.value.repos|, j requires 0 <= j < |l.value.repos| => l.value.repos[j].url) else []
    else if name == "enterprise" && m.enterprise.Some? then [m.enterprise.value.url]
    else if name == "core" then [m.core.url]
    else []
  }

  function EffectiveUrl(m: Manifest, layer: string, url: string): string {
    var o := FirstOverride(m.overrides, layer, url);
    if o.Some? then o.value.fork else url
  }

  function PlanUnlock(
    m: Manifest, base: Path, naming: Naming, layer: string, url: string): Result<UnlockPlan, UnlockError>
  {
    var root := RootOf(m, layer);
    if root.None? then Err(NoSuchLayer)
    else if url !in DeclaredUrls(m, layer) then Err(NoSuchRepo)
    else
      var name := naming(EffectiveUrl(m, layer, url));
      Ok(UnlockPlan(
        Target(base, root.value, layer, name), Target(base, Worktrees, layer, name), "unlock/" + layer + "/" + name))
  }

  lemma {:induction false} LayerEntryAt(m: Manifest, i: nat, n: nat)
    requires i < n <= |m.layers| && m.layers[i].Git?
    ensures EffectiveEntry(m, m.layers[i]) in LayerEntries(m, n)
  {
    if i < n - 1 { LayerEntryAt(m, i, n - 1); }
  }

  /** Every declared repository has an entry in the lock, under its effective url. */
  lemma DeclaredIsExpected(m: Manifest, layer: string, url: string) returns (e: GitEntry, j: nat)
    requires Composable(m) && forall l :: l in m.layers ==> l.name != "enterprise"
    requires url in DeclaredUrls(m, layer)
    ensures e in ExpectedGit(m) && e.name == layer && j < |e.repos| && e.repos[j].url == EffectiveUrl(m, layer, url)
  {
    OverridesAgree(m.overrides, layer, url);
    var l := LayerNamed(m.layers, layer);
    if l.Some? {
      var i :| 0 <= i < |m.layers| && m.layers[i] == l.value;
      LayerEntryAt(m, i, |m.layers|);
      e := EffectiveEntry(m, l.value);
      j :| 0 <= j < |l.value.repos| && l.value.repos[j].url == url;
    } else {
      FirstOverrideIs(m.overrides, layer, url);
      var s := if layer == "core" then m.core else m.enterprise.value;
      e, j := SourceEntry(layer, s, m.odooVersion), 0;
      assert e in SystemEntries(m);
    }
  }

  lemma {:induction false} FirstOverrideIs(os: seq<Override>, layer: string, url: string)
    ensures FirstOverride(os, layer, url).Some? ==>
      FirstOverride(os, layer, url).value in os && Targets(FirstOverride(os, layer, url).value, layer, url)
    decreases |os|
  {
    if os != [] { FirstOverrideIs(os[1..], layer, url); }
  }

  /**
   `plan_unlock` and `plan_projection` derive the same directory: the source
   that a declared repository is promoted from is what the lock's plan checks out.
   */
  lemma UnlockSourceIsPlanned(m: Manifest, base: Path, naming: Naming, lock: Lock, layer: string, url: string)
    returns (s: Step)
    requires Composable(m) && forall l :: l in m.layers ==> l.name != "enterprise"
    requires StripAll(lock.gitLayers) == ExpectedGit(m) && Classified(m, lock.gitLayers)
    requires url in DeclaredUrls(m, layer)
    ensures s in Plan(m, base, naming, lock).value && s.layer == layer && s.url == EffectiveUrl(m, layer, url)
    ensures PlanUnlock(m, base, naming, layer, url) == Ok(UnlockPlan(
      s.target, Target(base, Worktrees, layer, naming(s.url)), "unlock/" + layer + "/" + naming(s.url)))
  {
    var e, j := DeclaredIsExpected(m, layer, url);
    var i :| 0 <= i < |ExpectedGit(m)| && ExpectedGit(m)[i] == e;
    assert StripAll(lock.gitLayers)[i] == Strip(lock.gitLayers[i]) == e;
    assert e.repos[j].url == lock.gitLayers[i].repos[j].url;
    s := StepFor(base, naming, RootOf(m, layer).value, layer, lock.gitLayers[i].repos[j]);
    ProjectedIsStep(m, base, naming, lock.gitLayers, s, i, j);
  }

  /** A lock that matches its manifest can always be planned. */
  lemma MatchingIsClassified(m: Manifest, lock: Lock)
    requires StripAll(lock.gitLayers) == ExpectedGit(m)
    ensures Classified(m, lock.gitLayers)
  {
    LayerEntriesFrom(m, |m.layers|);
    forall l | l in lock.gitLayers ensures RootOf(m, l.name).Some? {
      var i :| 0 <= i < |lock.gitLayers| && lock.gitLayers[i] == l;
      var e := StripAll(lock.gitLayers)[i];
      assert e.name == l.name && e in ExpectedGit(m);
      if e in LayerEntries(m, |m.layers|) {
        var k :| 0 <= k < |m.layers| && m.layers[k].Git? && e == EffectiveEntry(m, m.layers[k]);
        assert m.layers[k] in m.layers;
      }
    }
  }

  // ------------------------------------------------------------------------
  // From a path back to its root and layer
  // ------------------------------------------------------------------------

  /** The one root that `path` lies under. */
  function RootUnder(base: Path, m: Manifest, path: Path): (r: Option<MountRoot>)
    ensures r.Some? ==> r.value in KnownRoots(m)
  {
    if !(base <= path) || |path| == |base| then None
    else if path[|base|] == "community" then Some(Community)
    else if path[|base|] == "enterprise" then Some(Enterprise)
    else if path[|base|] == "worktrees" then Some(Worktrees)
    else if path[|base|] == "custom" && |path| > |base| + 1 && Custom(path[|base| + 1]) in KnownRoots(m)
    then Some(Custom(path[|base| + 1]))
    else None
  }

  /** No root lies under another, so the order of the table never matters. */
  lemma RootIsUnique(base: Path, m: Manifest, path: Path, r: MountRoot)
    requires r in KnownRoots(m)
    ensures RootPath(base, r) <= path <==> RootUnder(base, m, path) == Some(r)
  {
    if base <= path && |path| > |base| {
      assert path == base + path[|base|..];
      assert RootPath(base, r) <= path <==> RootPath(base, r)[|base|..] <= path[|base|..];
    }
  }

  function MatchOf(base: Path, m: Manifest, path: Path): Option<(MountRoot, string)> {
    var r := RootUnder(base, m, path);
    if r.None? then None else
      var depth := |RootPath(base, r.value)|;
      if |path| < depth + 2 then None else Some((r.value, path[depth]))
  }

  /** Looks through the table in any order. */
  method MatchRootAndLayer(base: Path, m: Manifest, path: Path) returns (r: Option<(MountRoot, string)>)
    ensures r == MatchOf(base, m, path)
  {
    var roots := BuildMountRoots(base, m);
    var left := roots.Keys;
    while left != {}
      invariant left <= roots.Keys
      invariant forall k :: k in roots && k !in left ==> RootUnder(base, m, path) != Some(k)
      decreases |left|
    {
      var k :| k in left;
      left := left - {k};
      RootIsUnique(base, m, path, k);
      if roots[k] <= path {
        return if |path| < |roots[k]| + 2 then None else Some((k, path[|roots[k]|]));
      }
    }
    return None;
  }

  /** What is projected is recognised again. */
  lemma TargetMatches(base: Path, m: Manifest, r: MountRoot, layer: string, name: string)
    requires r in KnownRoots(m)
    ensures MatchOf(base, m, Target(base, r, layer, name)) == Some((r, layer))
  {
    RootIsUnique(base, m, Target(base, r, layer, name), r);
  }

  lemma TargetInjective(
    base: Path, r: MountRoot, layer: string, name: string, r': MountRoot, layer': string, name': string)
    requires Target(base, r, layer, name) == Target(base, r', layer', name')
    ensures layer == layer' && name == name'
  {
    var t := Target(base, r, layer, name);
    assert t[|t| - 2..] == [layer, name] && t[|t| - 2..] == [layer', name'];
  }
}
