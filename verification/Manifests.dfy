/**
 The manifest, its composition checks and the lock built from it.  Resolving a
 ref and resolving a published artifact are function arguments; the manifest
 hash and the repository name of a url are too.
 */
module Manifests {
  import opened Wrappers

  datatype Repo = Repo(url: string, ref: string)

  /** The singleton core and enterprise sources; without a ref they follow the Odoo version. */
  datatype Source = Source(url: string, ref: Option<string>)

  datatype Layer =
    | Git(name: string, category: string, repos: seq<Repo>)
    | Published(name: string, category: string, source: string, version: string, requiresEnterprise: bool)

  datatype Override = Override(layer: string, repo: string, fork: string, ref: string)

  datatype Manifest = Manifest(
    odooVersion: string, enterpriseEdition: bool, core: Source, enterprise: Option<Source>,
    layers: seq<Layer>, overrides: seq<Override>)

  datatype ResolvedRepo = ResolvedRepo(url: string, ref: string, commit: string)

  datatype ResolvedLayer = ResolvedLayer(name: string, repos: seq<ResolvedRepo>)

  datatype ResolvedPublished = ResolvedPublished(name: string, source: string, version: string, digest: string)

  datatype Lock = Lock(generatedFrom: string, gitLayers: seq<ResolvedLayer>, publishedLayers: seq<ResolvedPublished>)

  datatype Artifact = Artifact(source: string, version: string, digest: string)

  datatype CompositionError =
    | ReservedName | NeedsEnterprise | OverridesCore | DuplicateOverride | UnknownLayer | UnknownRepo | NotGit

  datatype LockError = Incoherent(error: CompositionError) | Unresolved(repo: Repo) | UnresolvedArtifact(layer: string)

  // ------------------------------------------------------------------------
  // Lookups that the source writes as dictionaries: the last entry wins
  // ------------------------------------------------------------------------

  function LayerNamed(layers: seq<Layer>, name: string): (r: Option<Layer>)
    ensures r.Some? ==> r.value in layers && r.value.name == name
    ensures r.None? <==> forall l :: l in layers ==> l.name != name
  {
    LastNamed(layers, (l: Layer) => l.name, name)
  }

  predicate Targets(o: Override, layer: string, url: string) { o.layer == layer && o.repo == url }

  function LastOverride(os: seq<Override>, layer: string, url: string): Option<Override> {
    if os == [] then None
    else if Targets(os[|os| - 1], layer, url) then Some(os[|os| - 1])
    else LastOverride(os[..|os| - 1], layer, url)
  }

  function FirstOverride(os: seq<Override>, layer: string, url: string): Option<Override> {
    if os == [] then None
    else if Targets(os[0], layer, url) then Some(os[0])
    else FirstOverride(os[1..], layer, url)
  }

  ghost predicate UniqueTargets(os: seq<Override>) {
    forall i, j :: 0 <= i < j < |os| ==> !Targets(os[i], os[j].layer, os[j].repo)
  }

  lemma {:induction false} LastOverrideIs(os: seq<Override>, layer: string, url: string, i: nat)
    requires UniqueTargets(os) && i < |os| && Targets(os[i], layer, url)
    ensures LastOverride(os, layer, url) == Some(os[i])
    decreases |os|
  {
    if i < |os| - 1 { LastOverrideIs(os[..|os| - 1], layer, url, i); }
  }

  /** The lock's dictionary and the unlock plan's first match pick the same override. */
  lemma {:induction false} OverridesAgree(os: seq<Override>, layer: string, url: string)
    requires UniqueTargets(os)
    ensures LastOverride(os, layer, url) == FirstOverride(os, layer, url)
    decreases |os|
  {
    if os == [] {
    } else if Targets(os[0], layer, url) {
      LastOverrideIs(os, layer, url, 0);
    } else {
      OverridesAgree(os[1..], layer, url);
      LastOverrideDrops(os, layer, url);
    }
  }

  lemma {:induction false} LastOverrideDrops(os: seq<Override>, layer: string, url: string)
    requires os != [] && !Targets(os[0], layer, url)
    ensures LastOverride(os, layer, url) == LastOverride(os[1..], layer, url)
    decreases |os|
  {
    if |os| > 1 {
      assert os[1..][..|os| - 2] == os[..|os| - 1][1..];
      LastOverrideDrops(os[..|os| - 1], layer, url);
    }
  }

  // ------------------------------------------------------------------------
  // Composition
  // ------------------------------------------------------------------------

  predicate OverrideFits(m: Manifest, o: Override) {
    o.layer != "core" &&
    var l := LayerNamed(m.layers, o.layer);
    l.Some? && l.value.Git? && exists r :: r in l.value.repos && r.url == o.repo
  }

  ghost predicate Composable(m: Manifest) {
    && (forall l :: l in m.layers ==> l.name != "core")
    && (m.enterpriseEdition || forall l :: l in m.layers && l.Published? ==> !l.requiresEnterprise)
    && UniqueTargets(m.overrides)
    && forall o :: o in m.overrides ==> OverrideFits(m, o)
  }

  function FitError(m: Manifest, o: Override): (error: Option<CompositionError>)
    ensures o.layer != "core" ==> (error.None? <==> OverrideFits(m, o))
  {
    var l := LayerNamed(m.layers, o.layer);
    if l.None? then Some(UnknownLayer)
    else if !l.value.Git? then Some(NotGit)
    else if !exists r :: r in l.value.repos && r.url == o.repo then Some(UnknownRepo)
    else None
  }

  function TargetSet(os: seq<Override>): set<(string, string)> {
    set o | o in os :: (o.layer, o.repo)
  }

  lemma UniqueTargetsStep(os: seq<Override>, i: nat)
    requires i < |os|
    ensures UniqueTargets(os[..i + 1]) <==> UniqueTargets(os[..i]) && (os[i].layer, os[i].repo) !in TargetSet(os[..i])
    ensures TargetSet(os[..i + 1]) == TargetSet(os[..i]) + {(os[i].layer, os[i].repo)}
    ensures !UniqueTargets(os[..i + 1]) ==> !UniqueTargets(os)
  {
    assert os[..i + 1] == os[..i] + [os[i]];
    var n := (os[i].layer, os[i].repo);
    assert n in TargetSet(os[..i]) <==> exists j :: 0 <= j < i && Targets(os[j], n.0, n.1) by {
      if j :| 0 <= j < i && Targets(os[j], n.0, n.1) { assert os[j] in os[..i]; }
    }
    forall j, k | 0 <= j < k <= i
      ensures Targets(os[..i + 1][j], os[..i + 1][k].layer, os[..i + 1][k].repo) <==>
        Targets(os[j], os[k].layer, os[k].repo)
    {
    }
  }

  method CheckOverrides(m: Manifest) returns (error: Option<CompositionError>)
    ensures error.None? <==> UniqueTargets(m.overrides) && forall o :: o in m.overrides ==> OverrideFits(m, o)
  {
    var targets: set<(string, string)> := {};
    for i := 0 to |m.overrides|
      invariant UniqueTargets(m.overrides[..i]) && targets == TargetSet(m.overrides[..i])
      invariant forall o :: o in m.overrides[..i] ==> OverrideFits(m, o)
    {
      var o := m.overrides[i];
      assert o in m.overrides && m.overrides[..i + 1] == m.overrides[..i] + [o];
      UniqueTargetsStep(m.overrides, i);
      if o.layer == "core" { return Some(OverridesCore); }
      if (o.layer, o.repo) in targets { return Some(DuplicateOverride); }
      targets := targets + {(o.layer, o.repo)};
      error := FitError(m, o);
      if error.Some? { return; }
    }
    assert m.overrides[..|m.overrides|] == m.overrides;
    return None;
  }

  /** Composition accepts exactly the coherent manifests. */
  method Compose(m: Manifest) returns (error: Option<CompositionError>)
    ensures error.None? <==> Composable(m)
  {
    if exists l :: l in m.layers && l.name == "core" { return Some(ReservedName); }
    if !m.enterpriseEdition && exists l :: l in m.layers && l.Published? && l.requiresEnterprise {
      return Some(NeedsEnterprise);
    }
    error := CheckOverrides(m);
  }

  // ------------------------------------------------------------------------
  // What a lock has to contain
  // ------------------------------------------------------------------------

  datatype GitEntry = GitEntry(name: string, repos: seq<Repo>)

  datatype PublishedEntry = PublishedEntry(name: string, source: string, version: string)

  function DefaultRef(s: Source, odooVersion: string): string {
    if s.ref.Some? then s.ref.value else odooVersion
  }

  function SourceEntry(name: string, s: Source, odooVersion: string): GitEntry {
    GitEntry(name, [Repo(s.url, DefaultRef(s, odooVersion))])
  }

  /** The repository that a declared one stands for, overrides applied. */
  function Effective(m: Manifest, layer: string, r: Repo): Repo {
    var o := LastOverride(m.overrides, layer, r.url);
    if o.Some? then Repo(o.value.fork, o.value.ref) else r
  }

  function EffectiveEntry(m: Manifest, l: Layer): GitEntry
    requires l.Git?
  {
    GitEntry(l.name, seq(|l.repos|, j requires 0 <= j < |l.repos| => Effective(m, l.name, l.repos[j])))
  }

  function SystemEntries(m: Manifest): seq<GitEntry> {
    [SourceEntry("core", m.core, m.odooVersion)]
    + if m.enterprise.Some? then [SourceEntry("enterprise", m.enterprise.value, m.odooVersion)] else []
  }

  function LayerEntries(m: Manifest, n: nat): seq<GitEntry>
    requires n <= |m.layers|
  {
    if n == 0 then [] else
      LayerEntries(m, n - 1) + if m.layers[n - 1].Git? then [EffectiveEntry(m, m.layers[n - 1])] else []
  }

  function PublishedEntries(m: Manifest, n: nat): seq<PublishedEntry>
    requires n <= |m.layers|
  {
    if n == 0 then [] else
      var l := m.layers[n - 1];
      PublishedEntries(m, n - 1) + if l.Published? then [PublishedEntry(l.name, l.source, l.version)] else []
  }

  function ExpectedGit(m: Manifest): seq<GitEntry> { SystemEntries(m) + LayerEntries(m, |m.layers|) }

  function Strip(l: ResolvedLayer): GitEntry {
    GitEntry(l.name, seq(|l.repos|, j requires 0 <= j < |l.repos| => Repo(l.repos[j].url, l.repos[j].ref)))
  }

  function StripAll(ls: seq<ResolvedLayer>): seq<GitEntry> {
    seq(|ls|, i requires 0 <= i < |ls| => Strip(ls[i]))
  }

  function StripPublished(ls: seq<ResolvedPublished>): seq<PublishedEntry> {
    seq(|ls|, i requires 0 <= i < |ls| => PublishedEntry(ls[i].name, ls[i].source, ls[i].version))
  }

  /** The lock names exactly the repositories that the manifest now asks for, in order. */
  predicate LockMatches(m: Manifest, lock: Lock) {
    && StripAll(lock.gitLayers) == ExpectedGit(m)
    && StripPublished(lock.publishedLayers) == PublishedEntries(m, |m.layers|)
  }

  // ------------------------------------------------------------------------
  // build_lock
  // ------------------------------------------------------------------------

  type Resolver = Repo -> Option<string>

  type ArtifactResolver = (string, string) -> Option<Artifact>

  ghost predicate Pinned(resolve: Resolver, ls: seq<ResolvedLayer>) {
    forall i, j :: 0 <= i < |ls| && 0 <= j < |ls[i].repos| ==> PinnedRepo(resolve, ls[i].repos[j])
  }

  predicate PinnedRepo(resolve: Resolver, r: ResolvedRepo) {
    resolve(Repo(r.url, r.ref)) == Some(r.commit)
  }

  /** The artifact resolver answers for the source and version it was asked about. */
  ghost predicate Echoes(artifact: ArtifactResolver) {
    forall s, v :: artifact(s, v).Some? ==> artifact(s, v).value.source == s && artifact(s, v).value.version == v
  }

  ghost predicate Resolvable(resolve: Resolver, es: seq<GitEntry>) {
    forall e, r :: e in es && r in e.repos ==> resolve(r).Some?
  }

  ghost predicate ArtifactsResolvable(m: Manifest, artifact: ArtifactResolver, n: nat)
    requires n <= |m.layers|
  {
    forall i :: 0 <= i < n && m.layers[i].Published? ==> artifact(m.layers[i].source, m.layers[i].version).Some?
  }

  method ResolveEntry(e: GitEntry, resolve: Resolver) returns (r: Result<ResolvedLayer, Repo>)
    ensures r.Ok? ==> Strip(r.value) == e && Pinned(resolve, [r.value])
    ensures r.Ok? <==> Resolvable(resolve, [e])
  {
    var repos: seq<ResolvedRepo> := [];
    for j := 0 to |e.repos|
      invariant |repos| == j
      invariant forall k :: 0 <= k < j ==>
        Repo(repos[k].url, repos[k].ref) == e.repos[k] && PinnedRepo(resolve, repos[k])
    {
      var repo := e.repos[j];
      var commit := resolve(repo);
      if commit.None? {
        assert e in [e] && repo in e.repos;
        return Err(repo);
      }
      repos := repos + [ResolvedRepo(repo.url, repo.ref, commit.value)];
    }
    return Ok(ResolvedLayer(e.name, repos));
  }

  lemma Appended(resolve: Resolver, ls: seq<ResolvedLayer>, es: seq<GitEntry>, l: ResolvedLayer, e: GitEntry)
    requires StripAll(ls) == es && Pinned(resolve, ls) && Strip(l) == e && Pinned(resolve, [l])
    ensures StripAll(ls + [l]) == es + [e] && Pinned(resolve, ls + [l])
  {
    forall i, j | 0 <= i < |ls + [l]| && 0 <= j < |(ls + [l])[i].repos|
      ensures PinnedRepo(resolve, (ls + [l])[i].repos[j])
    {
      if i == |ls| { assert PinnedRepo(resolve, [l][0].repos[j]); }
    }
  }

  lemma ResolvableSplits(resolve: Resolver, a: seq<GitEntry>, b: seq<GitEntry>)
    ensures Resolvable(resolve, a + b) <==> Resolvable(resolve, a) && Resolvable(resolve, b)
  {
    assert forall e :: e in a + b <==> e in a || e in b;
  }

  /** Prefixes of the layers contribute prefixes of the entries. */
  lemma {:induction false} EntriesGrow(m: Manifest, resolve: Resolver, n: nat)
    requires n <= |m.layers|
    ensures Resolvable(resolve, LayerEntries(m, |m.layers|)) ==> Resolvable(resolve, LayerEntries(m, n))
    decreases |m.layers| - n
  {
    if n < |m.layers| {
      EntriesGrow(m, resolve, n + 1);
      ResolvableSplits(resolve, LayerEntries(m, n), if m.layers[n].Git? then [EffectiveEntry(m, m.layers[n])] else []);
    }
  }

  method ResolveSystem(m: Manifest, resolve: Resolver) returns (r: Result<seq<ResolvedLayer>, Repo>)
    ensures r.Ok? ==> StripAll(r.value) == SystemEntries(m) && Pinned(resolve, r.value)
    ensures r.Ok? <==> Resolvable(resolve, SystemEntries(m))
  {
    var core := SourceEntry("core", m.core, m.odooVersion);
    var first := ResolveEntry(core, resolve);
    ResolvableSplits(resolve, [core], SystemEntries(m)[1..]);
    assert [core] + SystemEntries(m)[1..] == SystemEntries(m);
    if first.Err? { return Err(first.error); }
    Appended(resolve, [], [], first.value, core);
    assert [] + [first.value] == [first.value];
    if m.enterprise.None? { return Ok([first.value]); }
    var enterprise := SourceEntry("enterprise", m.enterprise.value, m.odooVersion);
    var second := ResolveEntry(enterprise, resolve);
    if second.Err? { return Err(second.error); }
    Appended(resolve, [first.value], [core], second.value, enterprise);
    return Ok([first.value] + [second.value]);
  }

  /** How far a lock has been built: the system sources and the first `n` layers. */
  ghost predicate LockedUpTo(
    m: Manifest, resolve: Resolver, artifact: ArtifactResolver, n: nat,
    git: seq<ResolvedLayer>, published: seq<ResolvedPublished>)
    requires n <= |m.layers|
  {
    && StripAll(git) == SystemEntries(m) + LayerEntries(m, n) && Pinned(resolve, git)
    && (Echoes(artifact) ==> StripPublished(published) == PublishedEntries(m, n))
    && Resolvable(resolve, SystemEntries(m) + LayerEntries(m, n)) && ArtifactsResolvable(m, artifact, n)
  }

  ghost predicate Lockable(m: Manifest, resolve: Resolver, artifact: ArtifactResolver) {
    Composable(m) && Resolvable(resolve, ExpectedGit(m)) && ArtifactsResolvable(m, artifact, |m.layers|)
  }

  /** One more layer: git repositories with their overrides, or the published artifact. */
  method ResolveLayer(
    m: Manifest, resolve: Resolver, artifact: ArtifactResolver, n: nat,
    git: seq<ResolvedLayer>, published: seq<ResolvedPublished>)
    returns (error: Option<LockError>, git': seq<ResolvedLayer>, published': seq<ResolvedPublished>)
    requires n < |m.layers| && LockedUpTo(m, resolve, artifact, n, git, published)
    ensures error.None? ==> LockedUpTo(m, resolve, artifact, n + 1, git', published')
    ensures error.Some? ==> !Lockable(m, resolve, artifact)
  {
    git', published' := git, published;
    match m.layers[n] {
      case Git(name, _, repos) =>
        var e := EffectiveEntry(m, m.layers[n]);
        var r := ResolveEntry(e, resolve);
        ResolvableSplits(resolve, SystemEntries(m) + LayerEntries(m, n), [e]);
        ResolvableSplits(resolve, SystemEntries(m), LayerEntries(m, n + 1));
        ResolvableSplits(resolve, SystemEntries(m), LayerEntries(m, |m.layers|));
        EntriesGrow(m, resolve, n + 1);
        assert SystemEntries(m) + LayerEntries(m, n) + [e] == SystemEntries(m) + LayerEntries(m, n + 1);
        if r.Err? { return Some(Unresolved(r.error)), git, published; }
        Appended(resolve, git, SystemEntries(m) + LayerEntries(m, n), r.value, e);
        git' := git + [r.value];
      case Published(name, _, source, version, _) =>
        var r := artifact(source, version);
        if r.None? { return Some(UnresolvedArtifact(name)), git, published; }
        published' := published + [ResolvedPublished(name, r.value.source, r.value.version, r.value.digest)];
        assert Echoes(artifact) ==>
          StripPublished(published') == StripPublished(published) + [PublishedEntry(name, source, version)];
    }
    return None, git', published';
  }

  /** The lock pins every effective repository of a coherent manifest, or nothing is locked. */
  method BuildLock(m: Manifest, resolve: Resolver, artifact: ArtifactResolver, hash: Manifest -> string)
    returns (r: Result<Lock, LockError>)
    ensures r.Ok? <==> Lockable(m, resolve, artifact)
    ensures r.Ok? ==> StripAll(r.value.gitLayers) == ExpectedGit(m) && Pinned(resolve, r.value.gitLayers)
    ensures r.Ok? ==> r.value.generatedFrom == hash(m)
    ensures r.Ok? && Echoes(artifact) ==> LockMatches(m, r.value)
  {
    var error := Compose(m);
    if error.Some? { return Err(Incoherent(error.value)); }
    var system := ResolveSystem(m, resolve);
    ResolvableSplits(resolve, SystemEntries(m), LayerEntries(m, |m.layers|));
    if system.Err? { return Err(Unresolved(system.error)); }
    var git, published: seq<ResolvedPublished> := system.value, [];
    assert SystemEntries(m) + LayerEntries(m, 0) == SystemEntries(m);
    for n := 0 to |m.layers|
      invariant LockedUpTo(m, resolve, artifact, n, git, published)
    {
      var stop;
      stop, git, published := ResolveLayer(m, resolve, artifact, n, git, published);
      if stop.Some? { return Err(stop.value); }
    }
    return Ok(Lock(hash(m), git, published));
  }
}
