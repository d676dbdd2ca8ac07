/**
 The mount planning view: scan facts validated against the lock, and one
 authoritative bind selected per locked repository.
 */
module MountView {
  import opened Wrappers
  import opened Manifests
  import opened Projection
  import opened MaterializedStates

  type Identity = (string, string)

  datatype Mount = Mount(layer: string, url: string, source: Path, container: Path, readOnly: bool)

  datatype MountError =
    | NoLock | ManifestDrift | Composition(error: CompositionError) | StructuralMismatch | OrphanedLayer
    | DuplicateIdentity | ConflictingPaths
    | Unmatched(path: Path) | UnexpectedEvidence | IncoherentPath | DuplicateEvidence
    | CommitDrift | MissingEvidence
    | DuplicateState | StateMismatch | StateCommitDrift

  // ------------------------------------------------------------------------
  // Identities, in order
  // ------------------------------------------------------------------------

  function IdOf(s: Step): Identity { (s.layer, s.url) }

  predicate StringLeq(a: string, b: string) {
    a == [] || (b != [] && (a[0] < b[0] || (a[0] == b[0] && StringLeq(a[1..], b[1..]))))
  }

  predicate IdLeq(x: Identity, y: Identity) {
    if x.0 == y.0 then StringLeq(x.1, y.1) else StringLeq(x.0, y.0)
  }

  lemma {:induction false} StringLeqTotal(a: string, b: string)
    ensures StringLeq(a, b) || StringLeq(b, a)
    decreases |a|
  {
    if a != [] && b != [] { StringLeqTotal(a[1..], b[1..]); }
  }

  function Insert(x: Identity, ids: seq<Identity>): seq<Identity> {
    if ids == [] || IdLeq(x, ids[0]) then [x] + ids else [ids[0]] + Insert(x, ids[1..])
  }

  function SortIds(ids: seq<Identity>): seq<Identity> {
    if ids == [] then [] else Insert(ids[0], SortIds(ids[1..]))
  }

  predicate InOrder(ids: seq<Identity>) {
    forall i :: 0 <= i < |ids| - 1 ==> IdLeq(ids[i], ids[i + 1])
  }

  lemma {:induction false} InsertKeepsOrder(x: Identity, ids: seq<Identity>)
    requires InOrder(ids)
    ensures InOrder(Insert(x, ids)) && multiset(Insert(x, ids)) == multiset(ids) + multiset{x}
    ensures Insert(x, ids)[0] == x || (ids != [] && Insert(x, ids)[0] == ids[0])
    decreases |ids|
  {
    if ids != [] {
      assert ids == [ids[0]] + ids[1..];
      if !IdLeq(x, ids[0]) {
        StringLeqTotal(x.0, ids[0].0);
        StringLeqTotal(x.1, ids[0].1);
        InsertKeepsOrder(x, ids[1..]);
      }
    }
  }

  lemma {:induction false} SortIdsSorts(ids: seq<Identity>)
    ensures InOrder(SortIds(ids)) && multiset(SortIds(ids)) == multiset(ids) && |SortIds(ids)| == |ids|
    decreases |ids|
  {
    if ids != [] {
      assert ids == [ids[0]] + ids[1..];
      SortIdsSorts(ids[1..]);
      InsertKeepsOrder(ids[0], SortIds(ids[1..]));
      assert |multiset(SortIds(ids))| == |multiset(ids)|;
    }
  }

  ghost predicate Distinct<T>(s: seq<T>) { forall i, j :: 0 <= i < j < |s| ==> s[i] != s[j] }

  /** Comparing sizes tells duplicates, as the source does. */
  lemma {:induction false} SizeTellsDuplicates<T>(s: seq<T>)
    ensures |Elements(s)| <= |s| && (|Elements(s)| == |s| <==> Distinct(s))
    decreases |s|
  {
    if s != [] {
      var init, last := s[..|s| - 1], s[|s| - 1];
      SizeTellsDuplicates(init);
      assert s == init + [last];
      assert Elements(s) == Elements(init) + {last};
      if last in init {
        var i :| 0 <= i < |init| && init[i] == last;
        assert s[i] == s[|s| - 1];
        assert Elements(s) == Elements(init);
      } else {
        forall i, j | 0 <= i < j < |s| && Distinct(init) ensures s[i] != s[j] {
          if j < |init| { assert init[i] != init[j]; } else { assert s[i] in init; }
        }
        if Distinct(s) {
          forall i, j | 0 <= i < j < |init| ensures init[i] != init[j] { assert s[i] != s[j]; }
        }
      }
    }
  }

  function Ids(steps: seq<Step>): seq<Identity> {
    seq(|steps|, i requires 0 <= i < |steps| => IdOf(steps[i]))
  }

  function ContainerPath(naming: Naming, s: Step): Path {
    Target(CONTAINER_MOUNT_BASE, s.root, s.layer, naming(s.url))
  }

  function ContainerPaths(naming: Naming, steps: seq<Step>): seq<Path> {
    seq(|steps|, i requires 0 <= i < |steps| => ContainerPath(naming, steps[i]))
  }

  type Expected = map<Identity, Step>

  function Index(steps: seq<Step>): Expected {
    if steps == [] then map[] else Index(steps[..|steps| - 1])[IdOf(steps[|steps| - 1]) := steps[|steps| - 1]]
  }

  lemma {:induction false} IndexIs(steps: seq<Step>)
    ensures Index(steps).Keys == Elements(Ids(steps))
    ensures forall id :: id in Index(steps) ==> Index(steps)[id] in steps && IdOf(Index(steps)[id]) == id
    ensures Distinct(Ids(steps)) ==> forall s :: s in steps ==> IdOf(s) in Index(steps) && Index(steps)[IdOf(s)] == s
    decreases |steps|
  {
    if steps != [] {
      var init, last := steps[..|steps| - 1], steps[|steps| - 1];
      IndexIs(init);
      assert steps == init + [last];
      assert Ids(steps) == Ids(init) + [IdOf(last)];
      if Distinct(Ids(steps)) {
        forall i, j | 0 <= i < j < |init| ensures Ids(init)[i] != Ids(init)[j] {
          assert Ids(steps)[i] != Ids(steps)[j];
        }
        forall s | s in init ensures IdOf(s) != IdOf(last) {
          var i :| 0 <= i < |init| && init[i] == s;
          assert Ids(steps)[i] != Ids(steps)[|init|];
        }
      }
    }
  }

  // ------------------------------------------------------------------------
  // The lock
  // ------------------------------------------------------------------------

  method ExpectedEntries(m: Manifest) returns (git: seq<GitEntry>, published: seq<PublishedEntry>)
    ensures git == ExpectedGit(m) && published == PublishedEntries(m, |m.layers|)
  {
    git := [SourceEntry("core", m.core, m.odooVersion)];
    if m.enterprise.Some? {
      git := git + [SourceEntry("enterprise", m.enterprise.value, m.odooVersion)];
    }
    published := [];
    ghost var system := git;
    for n := 0 to |m.layers|
      invariant git == system + LayerEntries(m, n) && published == PublishedEntries(m, n)
    {
      match m.layers[n]
      case Git(_, _, _) => git := git + [EffectiveEntry(m, m.layers[n])];
      case Published(name, _, source, version, _) => published := published + [PublishedEntry(name, source, version)];
    }
    assert system == SystemEntries(m);
  }

  method ValidateLockStructure(m: Manifest, lock: Lock) returns (error: Option<MountError>)
    ensures error.None? <==> Composable(m) && LockMatches(m, lock)
  {
    var e := Compose(m);
    if e.Some? { return Some(Composition(e.value)); }
    var git, published := ExpectedEntries(m);
    if git != StripAll(lock.gitLayers) || published != StripPublished(lock.publishedLayers) {
      return Some(StructuralMismatch);
    }
    return None;
  }

  /** The locked repositories of a lock that matches its manifest, each with a container path of its own. */
  ghost predicate LockFits(m: Manifest, naming: Naming, lock: Lock, hash: Manifest -> string) {
    && lock.generatedFrom == hash(m) && Composable(m) && LockMatches(m, lock) && Classified(m, lock.gitLayers)
    && SeparateSteps(naming, Locked(m, naming, lock))
  }

  function Locked(m: Manifest, naming: Naming, lock: Lock): seq<Step>
    requires Classified(m, lock.gitLayers)
  {
    Steps(m, CONTAINER_MOUNT_BASE, naming, lock.gitLayers)
  }

  lemma StepsAreRooted(m: Manifest, base: Path, naming: Naming, ls: seq<ResolvedLayer>)
    requires Classified(m, ls)
    ensures forall s :: s in Steps(m, base, naming, ls) ==>
      RootOf(m, s.layer) == Some(s.root) && s.target == Target(base, s.root, s.layer, naming(s.url))
  {
    forall s | s in Steps(m, base, naming, ls)
      ensures RootOf(m, s.layer) == Some(s.root) && s.target == Target(base, s.root, s.layer, naming(s.url))
    {
      var i, j := StepIsProjected(m, base, naming, ls, s);
    }
  }

  /** The two duplicate checks of the source say exactly that no two steps share layer and directory. */
  lemma PathsTellSeparation(m: Manifest, naming: Naming, steps: seq<Step>)
    requires forall s :: s in steps ==> RootOf(m, s.layer) == Some(s.root)
    ensures Distinct(Ids(steps)) && Distinct(ContainerPaths(naming, steps)) <==> SeparateSteps(naming, steps)
  {
    if SeparateSteps(naming, steps) {
      forall p, q | 0 <= p < q < |steps|
        ensures Ids(steps)[p] != Ids(steps)[q] && ContainerPaths(naming, steps)[p] != ContainerPaths(naming, steps)[q]
      {
        if ContainerPath(naming, steps[p]) == ContainerPath(naming, steps[q]) {
          TargetInjective(CONTAINER_MOUNT_BASE, steps[p].root, steps[p].layer, naming(steps[p].url),
            steps[q].root, steps[q].layer, naming(steps[q].url));
        }
      }
    }
    if Distinct(ContainerPaths(naming, steps)) {
      forall p, q | 0 <= p < q < |steps|
        ensures steps[p].layer != steps[q].layer || naming(steps[p].url) != naming(steps[q].url)
      {
        assert ContainerPaths(naming, steps)[p] != ContainerPaths(naming, steps)[q];
        assert steps[p] in steps && steps[q] in steps;
      }
    }
  }

  method PlanLocked(m: Manifest, naming: Naming, lock: Option<Lock>, hash: Manifest -> string)
    returns (r: Result<seq<Step>, MountError>)
    ensures r.Ok? <==> lock.Some? && LockFits(m, naming, lock.value, hash)
    ensures r.Ok? ==> r.value == Locked(m, naming, lock.value) && Distinct(Ids(r.value))
  {
    if lock.None? { return Err(NoLock); }
    var drift := DetectDrift(m, lock, None, hash);
    if drift.manifestLock != [] { return Err(ManifestDrift); }
    var error := ValidateLockStructure(m, lock.value);
    if error.Some? { return Err(error.value); }
    var plan := PlanProjection(m, CONTAINER_MOUNT_BASE, naming, lock.value);
    if plan.None? { return Err(OrphanedLayer); }
    var steps := plan.value;
    StepsAreRooted(m, CONTAINER_MOUNT_BASE, naming, lock.value.gitLayers);
    PathsTellSeparation(m, naming, steps);
    IndexIs(steps);
    SizeTellsDuplicates(Ids(steps));
    if |Index(steps).Keys| != |steps| { return Err(DuplicateIdentity); }
    SizeTellsDuplicates(ContainerPaths(naming, steps));
    if |Elements(ContainerPaths(naming, steps))| != |steps| { return Err(ConflictingPaths); }
    return Ok(steps);
  }

  // ------------------------------------------------------------------------
  // The scan
  // ------------------------------------------------------------------------

  /** The host side of one view: the base of the mount roots and how repositories are named. */
  datatype Host = Host(m: Manifest, base: Path, naming: Naming)

  /** The evidence lies under the host's root for its kind, at the directory of a locked repository. */
  predicate InPlace(h: Host, expected: Expected, s: ScannedRepo) {
    var at := MatchOf(h.base, h.m, s.path);
    at.Some? && (at.value.1, s.url) in expected &&
    var root := if at.value.0 == Worktrees then Worktrees else expected[(at.value.1, s.url)].root;
    s.path == Target(h.base, root, at.value.1, h.naming(s.url))
  }

  /** `s` is evidence for `id`, as its writable or as its read-only copy. */
  predicate Shows(h: Host, s: ScannedRepo, worktree: bool, id: Identity) {
    Evidences(h.base, h.m, s, worktree, id.0, id.1)
  }

  predicate SameSlot(h: Host, s: ScannedRepo, t: ScannedRepo) {
    var a, b := MatchOf(h.base, h.m, s.path), MatchOf(h.base, h.m, t.path);
    && a.Some? && b.Some? && (a.value.0 == Worktrees) == (b.value.0 == Worktrees)
    && a.value.1 == b.value.1 && s.url == t.url
  }

  /** Evidence without regard to its order: all of it in place, and at most one of each kind per repository. */
  ghost predicate ScanFits(h: Host, expected: Expected, scan: multiset<ScannedRepo>) {
    && (forall s :: s in scan ==> InPlace(h, expected, s) && scan[s] == 1)
    && (forall s, t :: s in scan && t in scan && SameSlot(h, s, t) ==> s == t)
  }

  ghost predicate HasEvidence(h: Host, scan: multiset<ScannedRepo>, worktree: bool, id: Identity) {
    exists s :: s in scan && Shows(h, s, worktree, id)
  }

  /** The evidence that decides: the writable copy if there is one. */
  ghost predicate Selects(h: Host, scan: multiset<ScannedRepo>, id: Identity, s: ScannedRepo) {
    s in scan && Shows(h, s, HasEvidence(h, scan, true, id), id)
  }

  ghost predicate Covered(h: Host, expected: Expected, scan: multiset<ScannedRepo>) {
    forall id :: id in expected ==> exists s :: Selects(h, scan, id, s) && s.commit == expected[id].commit
  }

  /** The two dictionaries of a scan by kind hold exactly its evidence. */
  ghost predicate Filed(h: Host, scan: multiset<ScannedRepo>, worktree: bool, files: map<Identity, ScannedRepo>) {
    && (forall id :: id in files ==> files[id] in scan && Shows(h, files[id], worktree, id))
    && (forall s, id :: s in scan && Shows(h, s, worktree, id) ==> id in files && files[id] == s)
  }

  /** One piece of evidence, checked before it is filed. */
  method CheckEvidence(h: Host, expected: Expected, s: ScannedRepo) returns (r: Result<(bool, Identity), MountError>)
    ensures r.Ok? <==> InPlace(h, expected, s)
    ensures r.Ok? ==> Shows(h, s, r.value.0, r.value.1)
  {
    var at := MatchRootAndLayer(h.base, h.m, s.path);
    if at.None? { return Err(Unmatched(s.path)); }
    var id := (at.value.1, s.url);
    if id !in expected { return Err(UnexpectedEvidence); }
    var worktree := at.value.0 == Worktrees;
    var path := Target(h.base, if worktree then Worktrees else expected[id].root, id.0, h.naming(s.url));
    if s.path != path { return Err(IncoherentPath); }
    return Ok((worktree, id));
  }

  lemma SlotsAreShown(h: Host, s: ScannedRepo, t: ScannedRepo, worktree: bool, id: Identity)
    requires Shows(h, s, worktree, id)
    ensures SameSlot(h, s, t) <==> Shows(h, t, worktree, id)
    ensures !Shows(h, s, !worktree, id)
    ensures forall w, k :: Shows(h, s, w, k) ==> w == worktree && k == id
  {
  }

  lemma DuplicateDoesNotFit(
    h: Host, expected: Expected, scan: multiset<ScannedRepo>, s: ScannedRepo, worktree: bool, id: Identity,
    files: map<Identity, ScannedRepo>)
    requires Filed(h, scan, worktree, files) && Shows(h, s, worktree, id) && id in files
    ensures !ScanFits(h, expected, scan + multiset{s})
  {
    SlotsAreShown(h, files[id], s, worktree, id);
    if files[id] == s {
      assert (scan + multiset{s})[s] >= 2;
    } else {
      assert files[id] in scan + multiset{s} && s in scan + multiset{s};
    }
  }

  lemma NewEvidenceFits(
    h: Host, expected: Expected, scan: multiset<ScannedRepo>, s: ScannedRepo, worktree: bool, id: Identity,
    files: map<Identity, ScannedRepo>)
    requires ScanFits(h, expected, scan) && Filed(h, scan, worktree, files)
    requires InPlace(h, expected, s) && Shows(h, s, worktree, id) && id !in files
    ensures ScanFits(h, expected, scan + multiset{s})
  {
    var more := scan + multiset{s};
    assert s !in scan;
    forall t | t in scan ensures !SameSlot(h, s, t) && !SameSlot(h, t, s) {
      SlotsAreShown(h, s, t, worktree, id);
    }
    forall t | t in more ensures InPlace(h, expected, t) && more[t] == 1 {
      if t in scan { assert scan[t] == 1; }
    }
  }

  lemma NewEvidenceIsFiled(
    h: Host, scan: multiset<ScannedRepo>, s: ScannedRepo, worktree: bool, id: Identity,
    files: map<Identity, ScannedRepo>)
    requires Filed(h, scan, worktree, files) && Shows(h, s, worktree, id) && id !in files
    ensures Filed(h, scan + multiset{s}, worktree, files[id := s])
  {
    SlotsAreShown(h, s, s, worktree, id);
  }

  lemma OtherKindIsStillFiled(
    h: Host, scan: multiset<ScannedRepo>, s: ScannedRepo, worktree: bool, id: Identity,
    other: map<Identity, ScannedRepo>)
    requires Filed(h, scan, !worktree, other) && Shows(h, s, worktree, id)
    ensures Filed(h, scan + multiset{s}, !worktree, other)
  {
    SlotsAreShown(h, s, s, worktree, id);
  }

  lemma ScanFitsPrefix(h: Host, expected: Expected, a: multiset<ScannedRepo>, b: multiset<ScannedRepo>)
    requires a <= b && ScanFits(h, expected, b)
    ensures ScanFits(h, expected, a)
  {
    forall s | s in a ensures InPlace(h, expected, s) && a[s] == 1 { assert s in b; }
  }

  ghost predicate FiledBoth(
    h: Host, expected: Expected, scan: multiset<ScannedRepo>,
    worktrees: map<Identity, ScannedRepo>, readOnly: map<Identity, ScannedRepo>)
  {
    ScanFits(h, expected, scan) && Filed(h, scan, true, worktrees) && Filed(h, scan, false, readOnly)
  }

  method FileOne(
    h: Host, expected: Expected, ghost scan: multiset<ScannedRepo>, s: ScannedRepo,
    worktrees: map<Identity, ScannedRepo>, readOnly: map<Identity, ScannedRepo>)
    returns (error: Option<MountError>, worktrees': map<Identity, ScannedRepo>, readOnly': map<Identity, ScannedRepo>)
    requires FiledBoth(h, expected, scan, worktrees, readOnly)
    ensures error.Some? ==> !ScanFits(h, expected, scan + multiset{s})
    ensures error.None? ==> FiledBoth(h, expected, scan + multiset{s}, worktrees', readOnly')
  {
    worktrees', readOnly' := worktrees, readOnly;
    var r := CheckEvidence(h, expected, s);
    if r.Err? {
      assert s in scan + multiset{s};
      return Some(r.error), worktrees, readOnly;
    }
    var worktree, id := r.value.0, r.value.1;
    var files, other := if worktree then worktrees else readOnly, if worktree then readOnly else worktrees;
    if id in files {
      DuplicateDoesNotFit(h, expected, scan, s, worktree, id, files);
      return Some(DuplicateEvidence), worktrees, readOnly;
    }
    NewEvidenceFits(h, expected, scan, s, worktree, id, files);
    NewEvidenceIsFiled(h, scan, s, worktree, id, files);
    OtherKindIsStillFiled(h, scan, s, worktree, id, other);
    files := files[id := s];
    error := None;
    if worktree { worktrees' := files; } else { readOnly' := files; }
  }

  method FileEvidence(h: Host, expected: Expected, scanned: seq<ScannedRepo>)
    returns (error: Option<MountError>, worktrees: map<Identity, ScannedRepo>, readOnly: map<Identity, ScannedRepo>)
    ensures error.None? <==> ScanFits(h, expected, multiset(scanned))
    ensures error.None? ==> FiledBoth(h, expected, multiset(scanned), worktrees, readOnly)
  {
    worktrees, readOnly := map[], map[];
    for i := 0 to |scanned|
      invariant FiledBoth(h, expected, multiset(scanned[..i]), worktrees, readOnly)
    {
      assert scanned[..i + 1] == scanned[..i] + [scanned[i]];
      assert scanned == scanned[..i + 1] + scanned[i + 1..];
      error, worktrees, readOnly := FileOne(h, expected, multiset(scanned[..i]), scanned[i], worktrees, readOnly);
      if error.Some? {
        if ScanFits(h, expected, multiset(scanned)) {
          ScanFitsPrefix(h, expected, multiset(scanned[..i + 1]), multiset(scanned));
        }
        return;
      }
    }
    assert scanned[..|scanned|] == scanned;
    error := None;
  }

  // ------------------------------------------------------------------------
  // One bind per locked repository
  // ------------------------------------------------------------------------

  /** Where a locked repository lies on the host, read-only or unlocked. */
  function HostPath(h: Host, step: Step, worktree: bool): Path {
    Target(h.base, if worktree then Worktrees else step.root, step.layer, h.naming(step.url))
  }

  function MountOf(h: Host, step: Step, unlocked: bool): Mount {
    Mount(step.layer, step.url, HostPath(h, step, unlocked), ContainerPath(h.naming, step), !unlocked)
  }

  /** The locked repositories that some worktree in the scan is a copy of. */
  ghost function UnlockedIds(h: Host, expected: Expected, scan: multiset<ScannedRepo>): set<Identity> {
    set id | id in expected && HasEvidence(h, scan, true, id)
  }

  function View(h: Host, expected: Expected, unlocked: set<Identity>, ids: seq<Identity>): seq<Mount>
    requires forall id :: id in ids ==> id in expected
  {
    seq(|ids|, k requires 0 <= k < |ids| => MountOf(h, expected[ids[k]], ids[k] in unlocked))
  }

  lemma SortedIdsAre(steps: seq<Step>)
    ensures forall id :: id in SortIds(Ids(steps)) <==> id in Index(steps)
    ensures |SortIds(Ids(steps))| == |steps|
  {
    IndexIs(steps);
    SortIdsSorts(Ids(steps));
    assert forall id :: id in SortIds(Ids(steps)) <==> id in multiset(SortIds(Ids(steps)));
    assert forall id :: id in Ids(steps) <==> id in multiset(Ids(steps));
  }

  /** Filed evidence that is in place carries the path that the view reports. */
  lemma FiledPath(
    h: Host, expected: Expected, scan: multiset<ScannedRepo>, worktree: bool, files: map<Identity, ScannedRepo>,
    id: Identity)
    requires ScanFits(h, expected, scan) && Filed(h, scan, worktree, files) && id in files
    ensures id in expected
    ensures IdOf(expected[id]) == id ==> files[id].path == HostPath(h, expected[id], worktree)
  {
    assert InPlace(h, expected, files[id]);
  }

  lemma FiledIsEvidence(
    h: Host, scan: multiset<ScannedRepo>, worktree: bool, files: map<Identity, ScannedRepo>, id: Identity)
    requires Filed(h, scan, worktree, files)
    ensures id in files <==> HasEvidence(h, scan, worktree, id)
  {
  }

  /** Filed evidence, by the place it was found at. */
  ghost predicate Located(h: Host, expected: Expected, worktree: bool, files: map<Identity, ScannedRepo>) {
    forall id :: id in files ==> id in expected && files[id].path == HostPath(h, expected[id], worktree)
  }

  /** In terms of the files: evidence for everything, and the deciding one at the locked commit. */
  predicate FilesCover(
    expected: Expected, worktrees: map<Identity, ScannedRepo>, readOnly: map<Identity, ScannedRepo>)
  {
    forall id :: id in expected ==>
      if id in worktrees then worktrees[id].commit == expected[id].commit
      else id in readOnly && readOnly[id].commit == expected[id].commit
  }

  lemma FilesTellCover(
    h: Host, expected: Expected, scan: multiset<ScannedRepo>,
    worktrees: map<Identity, ScannedRepo>, readOnly: map<Identity, ScannedRepo>)
    requires FiledBoth(h, expected, scan, worktrees, readOnly)
    ensures Covered(h, expected, scan) <==> FilesCover(expected, worktrees, readOnly)
  {
    forall id | id in expected
      ensures (exists s :: Selects(h, scan, id, s) && s.commit == expected[id].commit) <==>
        if id in worktrees then worktrees[id].commit == expected[id].commit
        else id in readOnly && readOnly[id].commit == expected[id].commit
    {
      FiledIsEvidence(h, scan, true, worktrees, id);
      if id in worktrees {
        assert Selects(h, scan, id, worktrees[id]);
      } else if id in readOnly {
        assert Selects(h, scan, id, readOnly[id]);
      }
    }
  }

  method MountFor(
    h: Host, expected: Expected, worktrees: map<Identity, ScannedRepo>, readOnly: map<Identity, ScannedRepo>,
    id: Identity)
    returns (r: Option<Mount>)
    requires Located(h, expected, true, worktrees) && Located(h, expected, false, readOnly) && id in expected
    ensures r == if id in worktrees || id in readOnly then Some(MountOf(h, expected[id], id in worktrees)) else None
  {
    var step := expected[id];
    if id !in worktrees && id !in readOnly { return None; }
    var evidence := if id in worktrees then worktrees[id] else readOnly[id];
    return Some(Mount(step.layer, step.url, evidence.path, ContainerPath(h.naming, step), id !in worktrees));
  }

  /** The mounts of the first `k` identities have been selected, and there was evidence for each. */
  ghost predicate MountedUpTo(
    h: Host, expected: Expected, worktrees: map<Identity, ScannedRepo>, readOnly: map<Identity, ScannedRepo>,
    ids: seq<Identity>, k: nat, mounts: seq<Mount>)
  {
    && k == |mounts| <= |ids|
    && forall i :: 0 <= i < k ==>
        && ids[i] in expected && (ids[i] in worktrees || ids[i] in readOnly)
        && mounts[i] == MountOf(h, expected[ids[i]], ids[i] in worktrees)
  }

  lemma AllMounted(
    h: Host, expected: Expected, worktrees: map<Identity, ScannedRepo>, readOnly: map<Identity, ScannedRepo>,
    ids: seq<Identity>, mounts: seq<Mount>)
    requires forall id :: id in ids ==> id in expected
    requires MountedUpTo(h, expected, worktrees, readOnly, ids, |ids|, mounts)
    ensures mounts == View(h, expected, worktrees.Keys, ids)
    ensures forall id :: id in ids ==> id in worktrees || id in readOnly
  {
  }

  method MountAll(
    h: Host, expected: Expected, worktrees: map<Identity, ScannedRepo>, readOnly: map<Identity, ScannedRepo>,
    ids: seq<Identity>)
    returns (r: Result<seq<Mount>, MountError>)
    requires Located(h, expected, true, worktrees) && Located(h, expected, false, readOnly)
    requires forall id :: id in ids ==> id in expected
    ensures r.Ok? <==> forall id :: id in ids ==> id in worktrees || id in readOnly
    ensures r.Ok? ==> r.value == View(h, expected, worktrees.Keys, ids)
  {
    var mounts: seq<Mount> := [];
    for k := 0 to |ids|
      invariant MountedUpTo(h, expected, worktrees, readOnly, ids, k, mounts)
    {
      assert ids[k] in ids;
      var mount := MountFor(h, expected, worktrees, readOnly, ids[k]);
      if mount.None? { return Err(MissingEvidence); }
      mounts := mounts + [mount.value];
    }
    AllMounted(h, expected, worktrees, readOnly, ids, mounts);
    return Ok(mounts);
  }

  /** Filed evidence is where the host would put it, and the filed worktrees are the unlocked repositories. */
  lemma FiledIsLocated(
    h: Host, steps: seq<Step>, scan: multiset<ScannedRepo>,
    worktrees: map<Identity, ScannedRepo>, readOnly: map<Identity, ScannedRepo>)
    requires FiledBoth(h, Index(steps), scan, worktrees, readOnly)
    ensures Located(h, Index(steps), true, worktrees) && Located(h, Index(steps), false, readOnly)
    ensures worktrees.Keys == UnlockedIds(h, Index(steps), scan)
  {
    var expected := Index(steps);
    IndexIs(steps);
    forall id | id in worktrees ensures id in expected && worktrees[id].path == HostPath(h, expected[id], true) {
      FiledPath(h, expected, scan, true, worktrees, id);
    }
    forall id | id in readOnly ensures id in expected && readOnly[id].path == HostPath(h, expected[id], false) {
      FiledPath(h, expected, scan, false, readOnly, id);
    }
    forall id ensures id in worktrees <==> id in UnlockedIds(h, expected, scan) {
      FiledIsEvidence(h, scan, true, worktrees, id);
    }
  }

  method SelectMounts(
    h: Host, steps: seq<Step>, ghost scan: multiset<ScannedRepo>,
    worktrees: map<Identity, ScannedRepo>, readOnly: map<Identity, ScannedRepo>)
    returns (r: Result<seq<Mount>, MountError>)
    requires FiledBoth(h, Index(steps), scan, worktrees, readOnly)
    ensures r.Ok? <==> Covered(h, Index(steps), scan)
    ensures r.Ok? ==> r.value == ViewOf(h, steps, scan)
  {
    var expected, ids := Index(steps), SortIds(Ids(steps));
    SortedIdsAre(steps);
    FilesTellCover(h, expected, scan, worktrees, readOnly);
    FiledIsLocated(h, steps, scan, worktrees, readOnly);
    r := CheckAndMount(h, expected, worktrees, readOnly, ids);
  }

  method CheckAndMount(
    h: Host, expected: Expected, worktrees: map<Identity, ScannedRepo>, readOnly: map<Identity, ScannedRepo>,
    ids: seq<Identity>)
    returns (r: Result<seq<Mount>, MountError>)
    requires Located(h, expected, true, worktrees) && Located(h, expected, false, readOnly)
    requires forall id :: id in ids <==> id in expected
    ensures r.Ok? <==> FilesCover(expected, worktrees, readOnly)
    ensures r.Ok? ==> r.value == View(h, expected, worktrees.Keys, ids)
  {
    if exists id :: id in worktrees && worktrees[id].commit != expected[id].commit { return Err(CommitDrift); }
    if exists id :: id in readOnly && id !in worktrees && readOnly[id].commit != expected[id].commit {
      return Err(CommitDrift);
    }
    r := MountAll(h, expected, worktrees, readOnly, ids);
  }

  /** What an accepted scan is turned into: it depends on the scan only through what is unlocked. */
  ghost function ViewOf(h: Host, steps: seq<Step>, scan: multiset<ScannedRepo>): seq<Mount> {
    SortedIdsAre(steps);
    View(h, Index(steps), UnlockedIds(h, Index(steps), scan), SortIds(Ids(steps)))
  }

  // ------------------------------------------------------------------------
  // The closing check on the materialized state
  // ------------------------------------------------------------------------

  type Held = (Identity, string)

  function FlatRepos(layer: string, repos: seq<MaterializedRepo>): seq<Held> {
    seq(|repos|, j requires 0 <= j < |repos| => ((layer, repos[j].url), repos[j].commit))
  }

  function Flat(state: State): seq<Held> {
    if state == [] then [] else
      Flat(state[..|state| - 1]) + FlatRepos(state[|state| - 1].name, state[|state| - 1].repos)
  }

  ghost predicate HeldOnce(held: seq<Held>) {
    forall i, j :: 0 <= i < j < |held| ==> held[i].0 != held[j].0
  }

  /** The state holds each locked repository once, at its commit, and nothing else. */
  ghost predicate StateFits(expected: Expected, state: State) {
    && HeldOnce(Flat(state))
    && forall id, c :: (id, c) in Flat(state) <==> id in expected && c == expected[id].commit
  }

  function AsMap(held: seq<Held>): map<Identity, string> {
    if held == [] then map[] else AsMap(held[..|held| - 1])[held[|held| - 1].0 := held[|held| - 1].1]
  }

  lemma {:induction false} AsMapIs(held: seq<Held>)
    requires HeldOnce(held)
    ensures forall id, c :: (id, c) in held <==> id in AsMap(held) && AsMap(held)[id] == c
    decreases |held|
  {
    if held != [] {
      var init, last := held[..|held| - 1], held[|held| - 1];
      assert held == init + [last];
      AsMapIs(init);
      forall x | x in init ensures x.0 != last.0 {
        var i :| 0 <= i < |init| && init[i] == x;
        assert held[i].0 != held[|init|].0;
      }
    }
  }

  lemma HeldOnceSnoc(held: seq<Held>, x: Held)
    requires HeldOnce(held)
    ensures HeldOnce(held + [x]) <==> x.0 !in AsMap(held)
    ensures AsMap(held + [x]) == AsMap(held)[x.0 := x.1]
  {
    AsMapIs(held);
    assert (held + [x])[..|held|] == held;
    if x.0 in AsMap(held) {
      var c := AsMap(held)[x.0];
      assert (x.0, c) in held;
      var j :| 0 <= j < |held| && held[j] == (x.0, c);
      assert (held + [x])[j].0 == (held + [x])[|held|].0;
    } else {
      forall y | y in held ensures y.0 != x.0 { assert (y.0, y.1) in held; }
    }
  }

  lemma HeldOncePrefix(held: seq<Held>, more: seq<Held>)
    requires HeldOnce(held + more)
    ensures HeldOnce(held)
  {
    forall i, j | 0 <= i < j < |held| ensures held[i].0 != held[j].0 {
      assert (held + more)[i].0 != (held + more)[j].0;
    }
  }

  lemma FlatSplits(before: seq<Held>, l: MaterializedLayer, j: nat)
    requires j < |l.repos|
    ensures var flat, x := FlatRepos(l.name, l.repos), ((l.name, l.repos[j].url), l.repos[j].commit);
      && before + flat[..j + 1] == before + flat[..j] + [x]
      && before + flat == before + flat[..j + 1] + flat[j + 1..]
  {
    var flat := FlatRepos(l.name, l.repos);
    assert flat[..j + 1] == flat[..j] + [flat[j]];
    assert flat == flat[..j + 1] + flat[j + 1..];
  }

  /** One more repository of a layer: refused iff the whole cannot be held once. */
  lemma CollectOne(before: seq<Held>, l: MaterializedLayer, j: nat)
    requires j < |l.repos| && HeldOnce(before + FlatRepos(l.name, l.repos)[..j])
    ensures var flat, id := FlatRepos(l.name, l.repos), (l.name, l.repos[j].url);
      && (id in AsMap(before + flat[..j]) ==> !HeldOnce(before + flat))
      && (id !in AsMap(before + flat[..j]) ==> HeldOnce(before + flat[..j + 1]))
      && AsMap(before + flat[..j + 1]) == AsMap(before + flat[..j])[id := l.repos[j].commit]
  {
    var flat, x: Held := FlatRepos(l.name, l.repos), ((l.name, l.repos[j].url), l.repos[j].commit);
    FlatSplits(before, l, j);
    HeldOnceSnoc(before + flat[..j], x);
    if HeldOnce(before + flat) { HeldOncePrefix(before + flat[..j + 1], flat[j + 1..]); }
  }

  /** The repositories of one layer, after those already collected. */
  method CollectLayer(ghost before: seq<Held>, actual: map<Identity, string>, l: MaterializedLayer)
    returns (r: Option<map<Identity, string>>)
    requires HeldOnce(before) && actual == AsMap(before)
    ensures r.None? ==> !HeldOnce(before + FlatRepos(l.name, l.repos))
    ensures r.Some? ==>
      HeldOnce(before + FlatRepos(l.name, l.repos)) && r.value == AsMap(before + FlatRepos(l.name, l.repos))
  {
    var collected := actual;
    ghost var flat := FlatRepos(l.name, l.repos);
    assert before + flat[..0] == before;
    for j := 0 to |l.repos|
      invariant HeldOnce(before + flat[..j]) && collected == AsMap(before + flat[..j])
    {
      var id := (l.name, l.repos[j].url);
      CollectOne(before, l, j);
      if id in collected { return None; }
      collected := collected[id := l.repos[j].commit];
    }
    assert flat[..|l.repos|] == flat;
    return Some(collected);
  }

  lemma {:induction false} FlatGrows(state: State, i: nat)
    requires i <= |state|
    ensures Flat(state[..i]) <= Flat(state)
    decreases |state| - i
  {
    if i < |state| {
      FlatGrows(state, i + 1);
      ghost var flat := Flat(state[..i + 1]);
      assert flat + Flat(state)[|flat|..] == Flat(state);
      assert state[..i + 1][..i] == state[..i];
    } else {
      assert state[..i] == state;
    }
  }

  method ValidateMaterializedState(expected: Expected, state: State) returns (error: Option<MountError>)
    ensures error.None? <==> StateFits(expected, state)
  {
    var actual: map<Identity, string> := map[];
    for i := 0 to |state|
      invariant HeldOnce(Flat(state[..i])) && actual == AsMap(Flat(state[..i]))
    {
      assert state[..i + 1][..i] == state[..i];
      FlatGrows(state, i + 1);
      ghost var flat := Flat(state[..i + 1]);
      assert flat + Flat(state)[|flat|..] == Flat(state);
      var r := CollectLayer(Flat(state[..i]), actual, state[i]);
      if r.None? {
        if HeldOnce(Flat(state)) { HeldOncePrefix(flat, Flat(state)[|flat|..]); }
        return Some(DuplicateState);
      }
      actual := r.value;
    }
    assert state[..|state|] == state;
    AsMapIs(Flat(state));
    if actual.Keys != expected.Keys {
      if StateFits(expected, state) {
        assert forall id :: id in actual ==> (id, actual[id]) in Flat(state);
        assert forall id :: id in expected ==> (id, expected[id].commit) in Flat(state);
      }
      return Some(StateMismatch);
    }
    if id :| id in expected && actual[id] != expected[id].commit {
      assert (id, actual[id]) in Flat(state);
      return Some(StateCommitDrift);
    }
    return None;
  }

  // ------------------------------------------------------------------------
  // build_mount_planning_view
  // ------------------------------------------------------------------------

  /** Everything but the closing check: the lock fits, the scan fits, and covers every locked repository. */
  ghost predicate EvidenceFits(h: Host, lock: Lock, scan: multiset<ScannedRepo>, hash: Manifest -> string) {
    && LockFits(h.m, h.naming, lock, hash)
    && ScanFits(h, Index(Locked(h.m, h.naming, lock)), scan)
    && Covered(h, Index(Locked(h.m, h.naming, lock)), scan)
  }

  ghost predicate Accepts(h: Host, lock: Lock, scan: multiset<ScannedRepo>, state: State, hash: Manifest -> string) {
    EvidenceFits(h, lock, scan, hash) && StateFits(Index(Locked(h.m, h.naming, lock)), state)
  }

  /**
   Acceptance and result are functions of the scan as a multiset: the order in
   which the workspace is walked decides neither.
   */
  method BuildMountPlanningView(
    h: Host, lock: Option<Lock>, scanned: seq<ScannedRepo>, state: State, hash: Manifest -> string)
    returns (r: Result<seq<Mount>, MountError>)
    ensures r.Ok? <==> lock.Some? && Accepts(h, lock.value, multiset(scanned), state, hash)
    ensures r.Ok? ==> r.value == ViewOf(h, Locked(h.m, h.naming, lock.value), multiset(scanned))
  {
    var plan := PlanLocked(h.m, h.naming, lock, hash);
    if plan.Err? { return Err(plan.error); }
    var expected := Index(plan.value);
    var error, worktrees, readOnly := FileEvidence(h, expected, scanned);
    if error.Some? { return Err(error.value); }
    r := SelectMounts(h, plan.value, multiset(scanned), worktrees, readOnly);
    if r.Err? { return; }
    error := ValidateMaterializedState(expected, state);
    if error.Some? { return Err(error.value); }
  }

  /** Two scans of the same workspace are answered alike. */
  method PermutedScansAgree(
    h: Host, lock: Option<Lock>, scanned: seq<ScannedRepo>, scanned': seq<ScannedRepo>, state: State,
    hash: Manifest -> string)
    returns (r: Result<seq<Mount>, MountError>, r': Result<seq<Mount>, MountError>)
    requires multiset(scanned) == multiset(scanned')
    ensures r.Ok? <==> r'.Ok?
    ensures r.Ok? ==> r == r'
  {
    r := BuildMountPlanningView(h, lock, scanned, state, hash);
    r' := BuildMountPlanningView(h, lock, scanned', state, hash);
  }

  ghost predicate MountsFor(naming: Naming, v: Mount, s: Step) {
    v.layer == s.layer && v.url == s.url && v.container == ContainerPath(naming, s)
  }

  lemma SortedIdsDistinct(steps: seq<Step>)
    requires Distinct(Ids(steps))
    ensures Distinct(SortIds(Ids(steps)))
  {
    SortIdsSorts(Ids(steps));
    SizeTellsDuplicates(Ids(steps));
    SizeTellsDuplicates(SortIds(Ids(steps)));
    SortedIdsAre(steps);
    IndexIs(steps);
    assert Elements(SortIds(Ids(steps))) == Elements(Ids(steps));
  }

  /** Mounts and locked repositories are in bijection, and no two share a container path. */
  lemma ViewIsBijective(h: Host, lock: Lock, scan: multiset<ScannedRepo>, hash: Manifest -> string)
    requires LockFits(h.m, h.naming, lock, hash)
    ensures var steps, view := Locked(h.m, h.naming, lock), ViewOf(h, Locked(h.m, h.naming, lock), scan);
      && |view| == |steps|
      && (forall k :: 0 <= k < |view| ==> exists s :: s in steps && MountsFor(h.naming, view[k], s))
      && (forall s :: s in steps ==> exists k :: 0 <= k < |view| && MountsFor(h.naming, view[k], s))
      && (forall j, k :: 0 <= j < k < |view| ==> view[j].container != view[k].container)
  {
    var steps := Locked(h.m, h.naming, lock);
    var view, ids := ViewOf(h, steps, scan), SortIds(Ids(steps));
    StepsAreRooted(h.m, CONTAINER_MOUNT_BASE, h.naming, lock.gitLayers);
    PathsTellSeparation(h.m, h.naming, steps);
    IndexIs(steps);
    SortedIdsAre(steps);
    SortedIdsDistinct(steps);
    assert |view| == |steps|;
    forall k | 0 <= k < |view|
      ensures Index(steps)[ids[k]] in steps && MountsFor(h.naming, view[k], Index(steps)[ids[k]])
    {
      assert ids[k] in ids;
    }
    forall s | s in steps ensures exists k :: 0 <= k < |view| && MountsFor(h.naming, view[k], s) {
      var k := MountOfStep(h, steps, scan, s);
    }
    forall j, k | 0 <= j < k < |view| ensures view[j].container != view[k].container {
      MountsApart(h, steps, ids[j], ids[k]);
    }
  }

  lemma MountOfStep(h: Host, steps: seq<Step>, scan: multiset<ScannedRepo>, s: Step) returns (k: nat)
    requires Distinct(Ids(steps)) && s in steps
    ensures k < |ViewOf(h, steps, scan)| && MountsFor(h.naming, ViewOf(h, steps, scan)[k], s)
  {
    var ids := SortIds(Ids(steps));
    IndexIs(steps);
    SortedIdsAre(steps);
    assert IdOf(s) in ids;
    k :| 0 <= k < |ids| && ids[k] == IdOf(s);
  }

  lemma MountsApart(h: Host, steps: seq<Step>, x: Identity, y: Identity)
    requires SeparateSteps(h.naming, steps) && x in Index(steps) && y in Index(steps) && x != y
    ensures ContainerPath(h.naming, Index(steps)[x]) != ContainerPath(h.naming, Index(steps)[y])
  {
    IndexIs(steps);
    var s, t := Index(steps)[x], Index(steps)[y];
    var p :| 0 <= p < |steps| && steps[p] == s;
    var q :| 0 <= q < |steps| && steps[q] == t;
    assert p != q;
    assert steps[if p < q then p else q].layer != steps[if p < q then q else p].layer
      || h.naming(steps[if p < q then p else q].url) != h.naming(steps[if p < q then q else p].url);
    if ContainerPath(h.naming, s) == ContainerPath(h.naming, t) {
      TargetInjective(CONTAINER_MOUNT_BASE, s.root, s.layer, h.naming(s.url), t.root, t.layer, h.naming(t.url));
    }
  }

  /** The evidence behind a mount: it was scanned there, at the locked commit, and is writable iff it is a worktree. */
  ghost predicate Backed(h: Host, scan: multiset<ScannedRepo>, v: Mount, s: ScannedRepo, step: Step) {
    && s in scan && s.path == v.source && s.url == v.url && v.url == step.url && s.commit == step.commit
    && Shows(h, s, !v.readOnly, IdOf(step))
    && (v.readOnly ==> !HasEvidence(h, scan, true, IdOf(step)))
  }

  lemma MountsAreBacked(h: Host, lock: Lock, scan: multiset<ScannedRepo>, hash: Manifest -> string, k: nat)
    requires EvidenceFits(h, lock, scan, hash)
    requires k < |ViewOf(h, Locked(h.m, h.naming, lock), scan)|
    ensures var steps, v := Locked(h.m, h.naming, lock), ViewOf(h, Locked(h.m, h.naming, lock), scan)[k];
      exists s, step :: step in steps && MountsFor(h.naming, v, step) && Backed(h, scan, v, s, step)
  {
    var steps := Locked(h.m, h.naming, lock);
    var ids, expected := SortIds(Ids(steps)), Index(steps);
    SortedIdsAre(steps);
    IndexIs(steps);
    var id := ids[k];
    assert id in ids;
    var s :| Selects(h, scan, id, s) && s.commit == expected[id].commit;
    assert InPlace(h, expected, s);
    var v := ViewOf(h, steps, scan)[k];
    assert MountsFor(h.naming, v, expected[id]) && Backed(h, scan, v, s, expected[id]);
  }

  // ------------------------------------------------------------------------
  // The closing check never rejects the state of the same scan
  // ------------------------------------------------------------------------

  lemma {:induction false} FlatHolds(state: State, id: Identity, c: string)
    ensures (id, c) in Flat(state) <==> Holds(state, id.0, id.1, c)
    decreases |state|
  {
    if state != [] {
      var init, last := state[..|state| - 1], state[|state| - 1];
      assert state == init + [last];
      FlatHolds(init, id, c);
      FlatReposHold(last, id, c);
      if HeadHolds(last, id.0, id.1, c) { assert last in state; }
      if Holds(init, id.0, id.1, c) {
        var l :| l in init && l.name == id.0 && MaterializedRepo(id.1, c) in l.repos;
        assert l in state;
      }
    }
  }

  lemma FlatReposHold(l: MaterializedLayer, id: Identity, c: string)
    ensures (id, c) in FlatRepos(l.name, l.repos) <==> HeadHolds(l, id.0, id.1, c)
  {
    if HeadHolds(l, id.0, id.1, c) {
      var j :| 0 <= j < |l.repos| && l.repos[j] == MaterializedRepo(id.1, c);
      assert FlatRepos(l.name, l.repos)[j] == (id, c);
    }
  }

  lemma FlatLayer(state: State, x: Held) returns (i: nat)
    requires x in Flat(state)
    ensures i < |state| && state[i].name == x.0.0
  {
    FlatHolds(state, x.0, x.1);
    var l :| l in state && l.name == x.0.0 && MaterializedRepo(x.0.1, x.1) in l.repos;
    i :| 0 <= i < |state| && state[i] == l;
  }

  lemma DictionaryInit(state: State)
    requires IsDictionary(state) && state != []
    ensures IsDictionary(state[..|state| - 1])
    ensures HeldOnce(FlatRepos(state[|state| - 1].name, state[|state| - 1].repos))
  {
    assert state[|state| - 1] in state;
    forall l | l in state[..|state| - 1] ensures UrlsDistinct(l.repos) && l.repos != [] { assert l in state; }
  }

  lemma {:induction false} FlatOnce(state: State)
    requires IsDictionary(state)
    ensures HeldOnce(Flat(state))
    decreases |state|
  {
    if state != [] {
      var init, last := state[..|state| - 1], state[|state| - 1];
      DictionaryInit(state);
      FlatOnce(init);
      forall x | x in Flat(init) ensures x.0.0 != last.name {
        var i := FlatLayer(init, x);
        assert state[i].name != state[|init|].name;
      }
      HeldOnceConcat(Flat(init), FlatRepos(last.name, last.repos));
    }
  }

  lemma HeldOnceConcat(a: seq<Held>, b: seq<Held>)
    requires HeldOnce(a) && HeldOnce(b) && forall x, y :: x in a && y in b ==> x.0 != y.0
    ensures HeldOnce(a + b)
  {
    var all := a + b;
    forall i, j | 0 <= i < j < |all| ensures all[i].0 != all[j].0 {
      if i < |a| <= j { assert all[i] in a && all[j] in b; }
    }
  }

  lemma SelectedIsUnique(
    h: Host, expected: Expected, scan: multiset<ScannedRepo>, id: Identity, s: ScannedRepo, t: ScannedRepo)
    requires ScanFits(h, expected, scan) && Selects(h, scan, id, s) && Selects(h, scan, id, t)
    ensures s == t
  {
    SlotsAreShown(h, s, t, HasEvidence(h, scan, true, id), id);
  }

  lemma UnlockedHasEvidence(h: Host, scanned: seq<ScannedRepo>, id: Identity)
    ensures Unlocked(h.base, h.m, scanned, id.0, id.1) <==> HasEvidence(h, multiset(scanned), true, id)
  {
    if Unlocked(h.base, h.m, scanned, id.0, id.1) {
      var t :| t in scanned && Evidences(h.base, h.m, t, true, id.0, id.1);
      assert t in multiset(scanned) && Shows(h, t, true, id);
    }
  }

  lemma HeldIsLocked(h: Host, expected: Expected, scanned: seq<ScannedRepo>, id: Identity, c: string)
    requires ScanFits(h, expected, multiset(scanned)) && Covered(h, expected, multiset(scanned))
    requires Holds(StateOf(h.base, h.m, scanned), id.0, id.1, c)
    ensures id in expected && c == expected[id].commit
  {
    var scan := multiset(scanned);
    StateHolds(h.base, h.m, scanned, id.0, id.1);
    var s :| s in scanned && s.commit == c
      && Evidences(h.base, h.m, s, Unlocked(h.base, h.m, scanned, id.0, id.1), id.0, id.1);
    assert s in scan;
    assert Selects(h, scan, id, s) by { UnlockedHasEvidence(h, scanned, id); }
    assert id in expected by { assert InPlace(h, expected, s); }
    var t :| Selects(h, scan, id, t) && t.commit == expected[id].commit;
    SelectedIsUnique(h, expected, scan, id, s, t);
  }

  lemma LockedIsHeld(h: Host, expected: Expected, scanned: seq<ScannedRepo>, id: Identity)
    requires Covered(h, expected, multiset(scanned)) && id in expected
    ensures exists c :: Holds(StateOf(h.base, h.m, scanned), id.0, id.1, c)
  {
    StateHolds(h.base, h.m, scanned, id.0, id.1);
    var t :| Selects(h, multiset(scanned), id, t) && t.commit == expected[id].commit;
    assert t in scanned;
    assert Evidenced(h.base, h.m, scanned, id.0, id.1);
  }

  lemma StateHoldsSelected(h: Host, expected: Expected, scanned: seq<ScannedRepo>, id: Identity, c: string)
    requires ScanFits(h, expected, multiset(scanned)) && Covered(h, expected, multiset(scanned))
    ensures Holds(StateOf(h.base, h.m, scanned), id.0, id.1, c) <==> id in expected && c == expected[id].commit
  {
    if Holds(StateOf(h.base, h.m, scanned), id.0, id.1, c) {
      HeldIsLocked(h, expected, scanned, id, c);
    }
    if id in expected {
      LockedIsHeld(h, expected, scanned, id);
      var held :| Holds(StateOf(h.base, h.m, scanned), id.0, id.1, held);
      HeldIsLocked(h, expected, scanned, id, held);
    }
  }

  lemma ClosingCheckNeverRejects(h: Host, lock: Lock, scanned: seq<ScannedRepo>, hash: Manifest -> string)
    requires EvidenceFits(h, lock, multiset(scanned), hash)
    ensures Recognised(h.base, h.m, scanned)
    ensures StateFits(Index(Locked(h.m, h.naming, lock)), StateOf(h.base, h.m, scanned))
  {
    var expected, state := Index(Locked(h.m, h.naming, lock)), StateOf(h.base, h.m, scanned);
    forall s | s in scanned ensures MatchOf(h.base, h.m, s.path).Some? {
      assert s in multiset(scanned) && InPlace(h, expected, s);
    }
    StateHolds(h.base, h.m, scanned, "", "");
    FlatOnce(state);
    forall id, c ensures (id, c) in Flat(state) <==> id in expected && c == expected[id].commit {
      FlatHolds(state, id, c);
      StateHoldsSelected(h, expected, scanned, id, c);
    }
  }
}
