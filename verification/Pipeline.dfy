/**
 The manifest pipeline end to end.  A workspace is coherent when it only holds
 locked repositories, each at its commit, read-only or as a promoted worktree;
 every step of the pipeline keeps that, and everything derived from a scan of
 such a workspace agrees with the lock.
 */
module Pipeline {
  import opened Wrappers
  import opened Manifests
  import opened Projection
  import opened MaterializedStates
  import opened MountView
  import opened Workspaces

  /** A checkout that belongs where it lies: read-only under the root of its layer, or a linked worktree. */
  predicate Houses(h: Host, s: Step, p: Path, c: Checkout) {
    c.Checkout? && p == HostPath(h, s, c.linked) && c.url == s.url && c.commit == s.commit
  }

  /** Every checkout belongs where it lies, and nothing else is in the way of one. */
  ghost predicate Coherent(h: Host, steps: seq<Step>, tree: Tree) {
    forall p :: p in tree ==> if tree[p].Checkout? then Housed(h, steps, p, tree[p]) else !Reserved(h, steps, p)
  }

  ghost predicate Housed(h: Host, steps: seq<Step>, p: Path, c: Checkout) {
    exists s :: s in steps && Houses(h, s, p, c)
  }

  ghost predicate Reserved(h: Host, steps: seq<Step>, p: Path) {
    exists s, w :: s in steps && p == HostPath(h, s, w)
  }

  predicate Present(h: Host, s: Step, tree: Tree) {
    HostPath(h, s, false) in tree || HostPath(h, s, true) in tree
  }

  ghost predicate Complete(h: Host, steps: seq<Step>, tree: Tree) {
    forall s :: s in steps ==> Present(h, s, tree)
  }

  /** What the proofs need of a lock: it fits its manifest, and its layers have distinct names. */
  ghost predicate Sound(h: Host, lock: Lock, hash: Manifest -> string) {
    LockFits(h.m, h.naming, lock, hash) && EntriesDistinct(h.naming, StripAll(lock.gitLayers))
  }

  /** A freshly built lock of a well-named manifest is sound. */
  lemma BuiltLockIsSound(h: Host, lock: Lock, hash: Manifest -> string)
    requires WellNamed(h.m, h.naming) && Composable(h.m)
    requires LockMatches(h.m, lock) && lock.generatedFrom == hash(h.m)
    ensures Sound(h, lock, hash)
  {
    ExpectedDistinct(h.m, h.naming);
    MatchingIsClassified(h.m, lock);
    StepsAreSeparate(h.m, CONTAINER_MOUNT_BASE, h.naming, lock.gitLayers);
  }

  // ------------------------------------------------------------------------
  // Paths
  // ------------------------------------------------------------------------

  lemma HostPathMatches(h: Host, s: Step, worktree: bool)
    requires RootOf(h.m, s.layer) == Some(s.root)
    ensures MatchOf(h.base, h.m, HostPath(h, s, worktree)) == Some((if worktree then Worktrees else s.root, s.layer))
    ensures s.root != Worktrees
  {
    TargetMatches(h.base, h.m, if worktree then Worktrees else s.root, s.layer, h.naming(s.url));
  }

  /** A path says which repository it belongs to, and in which of the two forms. */
  lemma HostPathInjective(h: Host, steps: seq<Step>, s: Step, t: Step, v: bool, w: bool)
    requires SeparateSteps(h.naming, steps) && s in steps && t in steps
    requires RootOf(h.m, s.layer) == Some(s.root) && RootOf(h.m, t.layer) == Some(t.root)
    requires HostPath(h, s, v) == HostPath(h, t, w)
    ensures s == t && v == w
  {
    HostPathMatches(h, s, v);
    HostPathMatches(h, t, w);
    TargetInjective(h.base, if v then Worktrees else s.root, s.layer, h.naming(s.url),
      if w then Worktrees else t.root, t.layer, h.naming(t.url));
    SeparateIsUnique(h.naming, steps, s, t);
  }

  lemma SeparateIsUnique(naming: Naming, steps: seq<Step>, s: Step, t: Step)
    requires SeparateSteps(naming, steps) && s in steps && t in steps
    requires s.layer == t.layer && naming(s.url) == naming(t.url)
    ensures s == t
  {
    var p :| 0 <= p < |steps| && steps[p] == s;
    var q :| 0 <= q < |steps| && steps[q] == t;
    assert p == q;
  }

  /** The host's plan and the container's differ only in where things go. */
  lemma {:induction false} StepsAlign(h: Host, ls: seq<ResolvedLayer>)
    requires Classified(h.m, ls)
    ensures Aligned(h, Steps(h.m, h.base, h.naming, ls), Steps(h.m, CONTAINER_MOUNT_BASE, h.naming, ls))
    decreases |ls|
  {
    if ls != [] { StepsAlign(h, ls[..|ls| - 1]); }
  }

  // ------------------------------------------------------------------------
  // Projection keeps a workspace coherent
  // ------------------------------------------------------------------------

  lemma CheckoutKeepsCoherence(h: Host, steps: seq<Step>, tree: Tree, s: Step, fails: bool)
    requires SeparateSteps(h.naming, steps) && s in steps
    requires forall t :: t in steps ==> RootOf(h.m, t.layer) == Some(t.root)
    requires Coherent(h, steps, tree)
    ensures var r := CheckedOut(tree, s.url, s.commit, HostPath(h, s, false), fails);
      && (r.Err? <==> fails && HostPath(h, s, false) !in tree)
      && (r.Ok? ==> Coherent(h, steps, r.value) && tree.Keys <= r.value.Keys && HostPath(h, s, false) in r.value)
  {
    var p := HostPath(h, s, false);
    if p in tree {
      var t :| t in steps && Houses(h, t, p, tree[p]);
      HostPathInjective(h, steps, s, t, false, tree[p].linked);
    } else {
      var tree' := tree[p := Checkout(s.url, s.commit, false, false)];
      assert Houses(h, s, p, tree'[p]);
      assert Housed(h, steps, p, tree'[p]);
    }
  }

  ghost predicate Aligned(h: Host, host: seq<Step>, steps: seq<Step>) {
    && |host| == |steps|
    && forall i :: 0 <= i < |host| ==> host[i] == steps[i].(target := HostPath(h, steps[i], false))
  }

  ghost predicate WellProjected(h: Host, steps: seq<Step>, before: Tree, after: Tree, n: nat)
    requires n <= |steps|
  {
    && Coherent(h, steps, after) && before.Keys <= after.Keys
    && forall i :: 0 <= i < n ==> HostPath(h, steps[i], false) in after
  }

  ghost predicate KeptSoFar(
    h: Host, steps: seq<Step>, before: Tree, p: (Tree, Option<WorkspaceError>), faults: set<nat>, n: nat)
    requires n <= |steps|
  {
    WellProjected(h, steps, before, p.0, if p.1.None? then n else 0) && (p.1.Some? ==> faults != {})
  }

  lemma WellProjectedNext(h: Host, steps: seq<Step>, before: Tree, after: Tree, after': Tree, n: nat)
    requires n < |steps| && WellProjected(h, steps, before, after, n)
    requires Coherent(h, steps, after') && after.Keys <= after'.Keys && HostPath(h, steps[n], false) in after'
    ensures WellProjected(h, steps, before, after', n + 1)
  {
  }

  lemma ProjectOne(
    h: Host, steps: seq<Step>, before: Tree, p: (Tree, Option<WorkspaceError>), s: Step, faults: set<nat>, n: nat)
    requires SeparateSteps(h.naming, steps) && forall t :: t in steps ==> RootOf(h.m, t.layer) == Some(t.root)
    requires n < |steps| && KeptSoFar(h, steps, before, p, faults, n)
    requires s == steps[n].(target := HostPath(h, steps[n], false))
    ensures KeptSoFar(h, steps, before, Stepped(p, s, n in faults), faults, n + 1)
  {
    if p.1.None? {
      assert WellProjected(h, steps, before, p.0, n);
      CheckoutKeepsCoherence(h, steps, p.0, steps[n], n in faults);
      match CheckedOut(p.0, s.url, s.commit, s.target, n in faults)
      case Ok(t) => WellProjectedNext(h, steps, before, p.0, t, n);
      case Err(_) =>
    }
  }

  /** The host's and the container's plan of one lock, with every directory its own. */
  ghost predicate Planned(h: Host, host: seq<Step>, steps: seq<Step>) {
    && Aligned(h, host, steps) && SeparateSteps(h.naming, steps)
    && forall t :: t in steps ==> RootOf(h.m, t.layer) == Some(t.root)
  }

  ghost predicate KeptAfter(
    h: Host, host: seq<Step>, steps: seq<Step>, tree: Tree, faults: set<nat>, n: nat)
    requires n <= |steps| == |host|
  {
    KeptSoFar(h, steps, tree, Projected(tree, host, faults, n), faults, n)
  }

  lemma ProjectedNext(tree: Tree, host: seq<Step>, faults: set<nat>, n: nat)
    requires n < |host|
    ensures Projected(tree, host, faults, n + 1)
         == Stepped(Projected(tree, host, faults, n), host[n], n in faults)
  {
  }

  lemma NextIsKept(h: Host, host: seq<Step>, steps: seq<Step>, tree: Tree, faults: set<nat>, n: nat)
    requires Planned(h, host, steps) && n < |steps| && KeptAfter(h, host, steps, tree, faults, n)
    ensures KeptAfter(h, host, steps, tree, faults, n + 1)
  {
    ProjectOne(h, steps, tree, Projected(tree, host, faults, n), host[n], faults, n);
    ProjectedNext(tree, host, faults, n);
  }

  lemma NothingProjected(h: Host, host: seq<Step>, steps: seq<Step>, tree: Tree, faults: set<nat>)
    requires |steps| == |host| && WellProjected(h, steps, tree, tree, 0)
    ensures KeptAfter(h, host, steps, tree, faults, 0)
  {
  }

  lemma {:induction false} ProjectionKeeps(
    h: Host, host: seq<Step>, steps: seq<Step>, tree: Tree, faults: set<nat>, n: nat)
    requires Planned(h, host, steps) && WellProjected(h, steps, tree, tree, 0) && n <= |steps|
    ensures KeptAfter(h, host, steps, tree, faults, n)
  {
    NothingProjected(h, host, steps, tree, faults);
    for k := 0 to n
      invariant KeptAfter(h, host, steps, tree, faults, k)
    {
      NextIsKept(h, host, steps, tree, faults, k);
    }
  }

  /** Every prefix of a projection is coherent, and only a failing clone can end it early. */
  lemma ProjectionKeepsCoherence(h: Host, lock: Lock, hash: Manifest -> string, tree: Tree, faults: set<nat>, n: nat)
    requires Sound(h, lock, hash) && Coherent(h, Locked(h.m, h.naming, lock), tree)
    requires n <= |Steps(h.m, h.base, h.naming, lock.gitLayers)|
    ensures var steps := Locked(h.m, h.naming, lock);
      var (t, error) := Projected(tree, Steps(h.m, h.base, h.naming, lock.gitLayers), faults, n);
      && Coherent(h, steps, t) && tree.Keys <= t.Keys
      && (error.None? && n == |Steps(h.m, h.base, h.naming, lock.gitLayers)| ==> Complete(h, steps, t))
      && (error.Some? ==> faults != {})
  {
    var steps, host := Locked(h.m, h.naming, lock), Steps(h.m, h.base, h.naming, lock.gitLayers);
    StepsAlign(h, lock.gitLayers);
    StepsAreRooted(h.m, CONTAINER_MOUNT_BASE, h.naming, lock.gitLayers);
    ProjectionKeeps(h, host, steps, tree, faults, n);
  }

  // ------------------------------------------------------------------------
  // What a scan of a coherent workspace says
  // ------------------------------------------------------------------------

  lemma {:induction false} DistinctCounts(scanned: seq<ScannedRepo>, s: ScannedRepo)
    requires forall i, j :: 0 <= i < j < |scanned| ==> scanned[i].path != scanned[j].path
    requires s in scanned
    ensures multiset(scanned)[s] == 1
    decreases |scanned|
  {
    var init, last := scanned[..|scanned| - 1], scanned[|scanned| - 1];
    assert scanned == init + [last];
    if last == s {
      assert s !in init;
    } else {
      DistinctCounts(init, s);
    }
  }

  /** Scanned evidence is that of one locked repository. */
  /** Coherent checkouts lie side by side, none inside another, so a scan finds them all. */
  lemma CoherentIsFound(h: Host, steps: seq<Step>, tree: Tree, p: Path)
    requires Coherent(h, steps, tree) && p in tree && tree[p].Checkout?
    requires forall t :: t in steps ==> RootOf(h.m, t.layer) == Some(t.root)
    ensures Found(h.m, h.base, tree, p)
  {
    var s :| s in steps && Houses(h, s, p, tree[p]);
    var root := if tree[p].linked then Worktrees else s.root;
    RootIsUnique(h.base, h.m, p, root);
    forall q | q in tree && tree[q].Checkout? && RootPath(h.base, root) <= q ensures !(q < p) {
      var t :| t in steps && Houses(h, t, q, tree[q]);
      RootIsUnique(h.base, h.m, q, root);
      RootIsUnique(h.base, h.m, q, if tree[q].linked then Worktrees else t.root);
      assert |q| == |p|;
    }
  }

  lemma ScannedIsLocked(
    h: Host, lock: Lock, hash: Manifest -> string, tree: Tree, scanned: seq<ScannedRepo>, x: ScannedRepo)
    returns (s: Step)
    requires Sound(h, lock, hash) && Coherent(h, Locked(h.m, h.naming, lock), tree)
    requires IsScan(h.m, h.base, tree, scanned) && x in scanned
    ensures s in Locked(h.m, h.naming, lock) && Houses(h, s, x.path, tree[x.path])
    ensures x.url == s.url && x.commit == s.commit && x.path == HostPath(h, s, tree[x.path].linked)
    ensures Shows(h, x, tree[x.path].linked, IdOf(s)) && InPlace(h, Index(Locked(h.m, h.naming, lock)), x)
  {
    var steps := Locked(h.m, h.naming, lock);
    s :| s in steps && Houses(h, s, x.path, tree[x.path]);
    StepsAreRooted(h.m, CONTAINER_MOUNT_BASE, h.naming, lock.gitLayers);
    PathsTellSeparation(h.m, h.naming, steps);
    IndexIs(steps);
    HostPathMatches(h, s, tree[x.path].linked);
  }

  lemma CoherentScanFits(h: Host, lock: Lock, hash: Manifest -> string, tree: Tree, scanned: seq<ScannedRepo>)
    requires Sound(h, lock, hash) && Coherent(h, Locked(h.m, h.naming, lock), tree)
    requires IsScan(h.m, h.base, tree, scanned)
    ensures ScanFits(h, Index(Locked(h.m, h.naming, lock)), multiset(scanned)) && Recognised(h.base, h.m, scanned)
  {
    var expected, scan := Index(Locked(h.m, h.naming, lock)), multiset(scanned);
    forall x | x in scanned ensures InPlace(h, expected, x) && scan[x] == 1 {
      var s := ScannedIsLocked(h, lock, hash, tree, scanned, x);
      DistinctCounts(scanned, x);
    }
    forall x, y | x in scan && y in scan && SameSlot(h, x, y) ensures x == y {
      assert x in scanned && y in scanned;
      var s := ScannedIsLocked(h, lock, hash, tree, scanned, x);
      var t := ScannedIsLocked(h, lock, hash, tree, scanned, y);
      SlotsAreShown(h, x, y, tree[x.path].linked, IdOf(s));
      SlotsAreShown(h, y, y, tree[y.path].linked, IdOf(t));
      SeparateIsUnique(h.naming, Locked(h.m, h.naming, lock), s, t);
    }
  }

  /** What lies on disk for a locked repository is exactly what its scan evidences. */
  lemma PresenceIsEvidence(
    h: Host, lock: Lock, hash: Manifest -> string, tree: Tree, scanned: seq<ScannedRepo>, s: Step, worktree: bool)
    requires Sound(h, lock, hash) && Coherent(h, Locked(h.m, h.naming, lock), tree)
    requires IsScan(h.m, h.base, tree, scanned)
    requires s in Locked(h.m, h.naming, lock)
    ensures HostPath(h, s, worktree) in tree <==> HasEvidence(h, multiset(scanned), worktree, IdOf(s))
    ensures HostPath(h, s, worktree) in tree ==>
      Scanned(tree, HostPath(h, s, worktree)) in scanned && Scanned(tree, HostPath(h, s, worktree)).commit == s.commit
      && Shows(h, Scanned(tree, HostPath(h, s, worktree)), worktree, IdOf(s))
  {
    var steps, p := Locked(h.m, h.naming, lock), HostPath(h, s, worktree);
    StepsAreRooted(h.m, CONTAINER_MOUNT_BASE, h.naming, lock.gitLayers);
    HostPathMatches(h, s, worktree);
    if p in tree {
      var x := Scanned(tree, p);
      CoherentIsFound(h, steps, tree, p);
      assert x in scanned && x in multiset(scanned);
      var t := ScannedIsLocked(h, lock, hash, tree, scanned, x);
      HostPathInjective(h, steps, s, t, worktree, tree[p].linked);
    }
    if HasEvidence(h, multiset(scanned), worktree, IdOf(s)) {
      var x :| x in multiset(scanned) && Shows(h, x, worktree, IdOf(s));
      assert x in scanned;
      var t := ScannedIsLocked(h, lock, hash, tree, scanned, x);
      SlotsAreShown(h, x, x, tree[x.path].linked, IdOf(t));
      SeparateIsUnique(h.naming, steps, s, t);
    }
  }

  /** A coherent workspace is accepted exactly when it is complete, and its state passes the closing check. */
  lemma CoherentIsAcceptedIff(h: Host, lock: Lock, hash: Manifest -> string, tree: Tree, scanned: seq<ScannedRepo>)
    requires Sound(h, lock, hash) && Coherent(h, Locked(h.m, h.naming, lock), tree)
    requires IsScan(h.m, h.base, tree, scanned)
    ensures Accepts(h, lock, multiset(scanned), StateOf(h.base, h.m, scanned), hash) <==>
      Complete(h, Locked(h.m, h.naming, lock), tree)
  {
    var steps, scan := Locked(h.m, h.naming, lock), multiset(scanned);
    StepsAreRooted(h.m, CONTAINER_MOUNT_BASE, h.naming, lock.gitLayers);
    PathsTellSeparation(h.m, h.naming, steps);
    IndexIs(steps);
    CoherentScanFits(h, lock, hash, tree, scanned);
    forall s | s in steps
      ensures Present(h, s, tree) <==> exists x :: Selects(h, scan, IdOf(s), x) && x.commit == s.commit
    {
      PresenceIsEvidence(h, lock, hash, tree, scanned, s, true);
      PresenceIsEvidence(h, lock, hash, tree, scanned, s, false);
      if Present(h, s, tree) {
        var x := Scanned(tree, HostPath(h, s, HostPath(h, s, true) in tree));
        assert Selects(h, scan, IdOf(s), x) && x.commit == s.commit;
      }
    }
    assert Covered(h, Index(steps), scan) <==> Complete(h, steps, tree) by {
      if Covered(h, Index(steps), scan) {
        forall s | s in steps ensures Present(h, s, tree) { assert IdOf(s) in Index(steps); }
      }
      if Complete(h, steps, tree) {
        forall id | id in Index(steps)
          ensures exists x :: Selects(h, scan, id, x) && x.commit == Index(steps)[id].commit
        {
          assert Index(steps)[id] in steps && Present(h, Index(steps)[id], tree);
        }
      }
    }
    if EvidenceFits(h, lock, scan, hash) { ClosingCheckNeverRejects(h, lock, scanned, hash); }
  }

  // ------------------------------------------------------------------------
  // Drift of a coherent workspace
  // ------------------------------------------------------------------------

  lemma LockedStep(h: Host, lock: Lock, hash: Manifest -> string, l: ResolvedLayer, r: ResolvedRepo) returns (s: Step)
    requires Sound(h, lock, hash) && l in lock.gitLayers && r in l.repos
    ensures s in Locked(h.m, h.naming, lock) && s.layer == l.name && s.url == r.url && s.commit == r.commit
  {
    var i :| 0 <= i < |lock.gitLayers| && lock.gitLayers[i] == l;
    var j :| 0 <= j < |l.repos| && l.repos[j] == r;
    s := StepFor(CONTAINER_MOUNT_BASE, h.naming, RootOf(h.m, l.name).value, l.name, r);
    ProjectedIsStep(h.m, CONTAINER_MOUNT_BASE, h.naming, lock.gitLayers, s, i, j);
  }

  /** What the state of a coherent workspace holds is locked there, and lies on disk. */
  lemma HeldIsLocked(
    h: Host, lock: Lock, hash: Manifest -> string, tree: Tree, scanned: seq<ScannedRepo>, layer: string, url: string,
    c: string)
    returns (s: Step)
    requires Sound(h, lock, hash) && Coherent(h, Locked(h.m, h.naming, lock), tree)
    requires IsScan(h.m, h.base, tree, scanned)
    requires Holds(StateOf(h.base, h.m, scanned), layer, url, c)
    ensures s in Locked(h.m, h.naming, lock) && IdOf(s) == (layer, url) && s.commit == c && Present(h, s, tree)
  {
    StateHolds(h.base, h.m, scanned, layer, url);
    var unlocked := Unlocked(h.base, h.m, scanned, layer, url);
    var x :| x in scanned && x.commit == c && Evidences(h.base, h.m, x, unlocked, layer, url);
    s := ScannedIsLocked(h, lock, hash, tree, scanned, x);
    SlotsAreShown(h, x, x, unlocked, (layer, url));
    assert HostPath(h, s, tree[x.path].linked) in tree;
  }

  lemma PresentIsHeld(h: Host, lock: Lock, hash: Manifest -> string, tree: Tree, scanned: seq<ScannedRepo>, s: Step)
    requires Sound(h, lock, hash) && Coherent(h, Locked(h.m, h.naming, lock), tree)
    requires IsScan(h.m, h.base, tree, scanned)
    requires s in Locked(h.m, h.naming, lock)
    ensures Present(h, s, tree) <==> Holds(StateOf(h.base, h.m, scanned), s.layer, s.url, s.commit)
  {
    var steps, state := Locked(h.m, h.naming, lock), StateOf(h.base, h.m, scanned);
    if Present(h, s, tree) {
      var w := HostPath(h, s, true) in tree;
      PresenceIsEvidence(h, lock, hash, tree, scanned, s, w);
      var x := Scanned(tree, HostPath(h, s, w));
      StateHolds(h.base, h.m, scanned, s.layer, s.url);
      assert Evidences(h.base, h.m, x, true, s.layer, s.url) || Evidences(h.base, h.m, x, false, s.layer, s.url);
      var c :| Holds(state, s.layer, s.url, c);
      var t := HeldIsLocked(h, lock, hash, tree, scanned, s.layer, s.url, c);
      SeparateIsUnique(h.naming, steps, s, t);
    }
    if Holds(state, s.layer, s.url, s.commit) {
      var t := HeldIsLocked(h, lock, hash, tree, scanned, s.layer, s.url, s.commit);
      SeparateIsUnique(h.naming, steps, s, t);
    }
  }

  /** Whatever part of a lock has been projected, the only drift is what has not. */
  lemma CoherentOnlyLacks(h: Host, lock: Lock, hash: Manifest -> string, tree: Tree, scanned: seq<ScannedRepo>)
    requires Sound(h, lock, hash) && Coherent(h, Locked(h.m, h.naming, lock), tree)
    requires IsScan(h.m, h.base, tree, scanned)
    ensures forall e :: e in LayersDrift(lock.gitLayers, StateOf(h.base, h.m, scanned)) ==> e.NotMaterialized?
  {
    var state := StateOf(h.base, h.m, scanned);
    StateHolds(h.base, h.m, scanned, "", "");
    forall l, r, c | l in lock.gitLayers && r in l.repos && Holds(state, l.name, r.url, c) ensures c == r.commit {
      var s := HeldIsLocked(h, lock, hash, tree, scanned, l.name, r.url, c);
      var t := LockedStep(h, lock, hash, l, r);
      SeparateIsUnique(h.naming, Locked(h.m, h.naming, lock), s, t);
    }
    AgreementOnlyLacks(lock.gitLayers, state);
  }

  ghost predicate NoEmptyLayer(lock: Lock) {
    forall l :: l in lock.gitLayers ==> l.repos != []
  }

  lemma LayerIsPopulated(
    h: Host, lock: Lock, hash: Manifest -> string, tree: Tree, scanned: seq<ScannedRepo>, l: ResolvedLayer)
    requires Sound(h, lock, hash) && Coherent(h, Locked(h.m, h.naming, lock), tree)
    requires IsScan(h.m, h.base, tree, scanned)
    requires l in lock.gitLayers && FindLayer(StateOf(h.base, h.m, scanned), l.name).Some?
    ensures l.repos != []
  {
    var state := StateOf(h.base, h.m, scanned);
    StateHolds(h.base, h.m, scanned, "", "");
    var found := FindLayer(state, l.name).value;
    assert found.repos[0] in found.repos;
    assert Holds(state, l.name, found.repos[0].url, found.repos[0].commit);
    var s := HeldIsLocked(h, lock, hash, tree, scanned, l.name, found.repos[0].url, found.repos[0].commit);
    StepLayerIsPopulated(h, lock, s, l);
  }

  lemma StepLayerIsPopulated(h: Host, lock: Lock, s: Step, l: ResolvedLayer)
    requires Classified(h.m, lock.gitLayers) && EntriesDistinct(h.naming, StripAll(lock.gitLayers))
    requires s in Locked(h.m, h.naming, lock) && l in lock.gitLayers && s.layer == l.name
    ensures l.repos != []
  {
    var i, j := StepIsProjected(h.m, CONTAINER_MOUNT_BASE, h.naming, lock.gitLayers, s);
    var k :| 0 <= k < |lock.gitLayers| && lock.gitLayers[k] == l;
    assert StripAll(lock.gitLayers)[i].name == StripAll(lock.gitLayers)[k].name;
    assert i == k;
  }

  /** Clean exactly when everything locked is on disk, and no locked layer is without repositories. */
  lemma CoherentIsCleanIff(h: Host, lock: Lock, hash: Manifest -> string, tree: Tree, scanned: seq<ScannedRepo>)
    requires Sound(h, lock, hash) && Coherent(h, Locked(h.m, h.naming, lock), tree)
    requires IsScan(h.m, h.base, tree, scanned)
    ensures LayersDrift(lock.gitLayers, StateOf(h.base, h.m, scanned)) == [] <==>
      Complete(h, Locked(h.m, h.naming, lock), tree) && NoEmptyLayer(lock)
  {
    var steps, state := Locked(h.m, h.naming, lock), StateOf(h.base, h.m, scanned);
    StateHolds(h.base, h.m, scanned, "", "");
    CleanIff(lock.gitLayers, state);
    if LayersDrift(lock.gitLayers, state) == [] {
      forall s | s in steps ensures Present(h, s, tree) {
        var i, j := StepIsProjected(h.m, CONTAINER_MOUNT_BASE, h.naming, lock.gitLayers, s);
        assert lock.gitLayers[i] in lock.gitLayers && lock.gitLayers[i].repos[j] in lock.gitLayers[i].repos;
        PresentIsHeld(h, lock, hash, tree, scanned, s);
      }
      forall l | l in lock.gitLayers ensures l.repos != [] {
        LayerIsPopulated(h, lock, hash, tree, scanned, l);
      }
    }
    if Complete(h, steps, tree) && NoEmptyLayer(lock) {
      forall l | l in lock.gitLayers
        ensures FindLayer(state, l.name).Some? && forall r :: r in l.repos ==> Holds(state, l.name, r.url, r.commit)
      {
        CompleteLayerIsHeld(h, lock, hash, tree, scanned, l);
      }
    }
  }

  lemma CompleteLayerIsHeld(
    h: Host, lock: Lock, hash: Manifest -> string, tree: Tree, scanned: seq<ScannedRepo>, l: ResolvedLayer)
    requires Sound(h, lock, hash) && Coherent(h, Locked(h.m, h.naming, lock), tree)
    requires IsScan(h.m, h.base, tree, scanned)
    requires Complete(h, Locked(h.m, h.naming, lock), tree) && l in lock.gitLayers && l.repos != []
    ensures var state := StateOf(h.base, h.m, scanned);
      FindLayer(state, l.name).Some? && forall r :: r in l.repos ==> Holds(state, l.name, r.url, r.commit)
  {
    var state := StateOf(h.base, h.m, scanned);
    forall r | r in l.repos ensures Holds(state, l.name, r.url, r.commit) {
      var s := LockedStep(h, lock, hash, l, r);
      PresentIsHeld(h, lock, hash, tree, scanned, s);
    }
    assert l.repos[0] in l.repos;
    StateHolds(h.base, h.m, scanned, "", "");
    FindIs(state, l.name, l.repos[0].url);
  }

  // ------------------------------------------------------------------------
  // Promotion
  // ------------------------------------------------------------------------

  lemma UnlockedIsLinked(
    h: Host, lock: Lock, hash: Manifest -> string, tree: Tree, scanned: seq<ScannedRepo>, id: Identity)
    requires Sound(h, lock, hash) && Coherent(h, Locked(h.m, h.naming, lock), tree)
    requires IsScan(h.m, h.base, tree, scanned)
    requires id in Index(Locked(h.m, h.naming, lock))
    ensures id in UnlockedIds(h, Index(Locked(h.m, h.naming, lock)), multiset(scanned)) <==>
      HostPath(h, Index(Locked(h.m, h.naming, lock))[id], true) in tree
  {
    IndexIs(Locked(h.m, h.naming, lock));
    PresenceIsEvidence(h, lock, hash, tree, scanned, Index(Locked(h.m, h.naming, lock))[id], true);
  }

  predicate IsCheckout(tree: Tree, p: Path) { p in tree && tree[p].Checkout? }

  function Promoted(tree: Tree, source: Path, dest: Path): Tree
    requires IsCheckout(tree, source)
  {
    tree[dest := tree[source].(linked := true, dirty := false)]
  }

  lemma PromotionKeepsCoherence(h: Host, steps: seq<Step>, tree: Tree, s: Step)
    requires SeparateSteps(h.naming, steps) && s in steps
    requires forall t :: t in steps ==> RootOf(h.m, t.layer) == Some(t.root)
    requires Coherent(h, steps, tree) && HostPath(h, s, false) in tree
    ensures Coherent(h, steps, Promoted(tree, HostPath(h, s, false), HostPath(h, s, true)))
    ensures Complete(h, steps, tree) ==> Complete(h, steps, Promoted(tree, HostPath(h, s, false), HostPath(h, s, true)))
  {
    var source, dest := HostPath(h, s, false), HostPath(h, s, true);
    var tree' := Promoted(tree, source, dest);
    var t :| t in steps && Houses(h, t, source, tree[source]);
    HostPathInjective(h, steps, s, t, false, tree[source].linked);
    assert Houses(h, s, dest, tree'[dest]) && Housed(h, steps, dest, tree'[dest]);
    forall u | u in steps && Present(h, u, tree) ensures Present(h, u, tree') {}
  }

  lemma IndexOfLocked(h: Host, lock: Lock, hash: Manifest -> string)
    requires Sound(h, lock, hash)
    ensures var steps := Locked(h.m, h.naming, lock);
      && (forall id :: id in Index(steps) ==> Index(steps)[id] in steps && IdOf(Index(steps)[id]) == id)
      && (forall s :: s in steps ==> IdOf(s) in Index(steps) && Index(steps)[IdOf(s)] == s)
      && (forall s :: s in steps ==> RootOf(h.m, s.layer) == Some(s.root))
  {
    var steps := Locked(h.m, h.naming, lock);
    StepsAreRooted(h.m, CONTAINER_MOUNT_BASE, h.naming, lock.gitLayers);
    PathsTellSeparation(h.m, h.naming, steps);
    IndexIs(steps);
  }

  lemma PromotedStaysCoherent(h: Host, lock: Lock, hash: Manifest -> string, tree: Tree, s: Step)
    requires Sound(h, lock, hash) && s in Locked(h.m, h.naming, lock)
    requires Coherent(h, Locked(h.m, h.naming, lock), tree) && HostPath(h, s, false) in tree
    ensures var steps := Locked(h.m, h.naming, lock);
      var tree' := Promoted(tree, HostPath(h, s, false), HostPath(h, s, true));
      Coherent(h, steps, tree') && (Complete(h, steps, tree) ==> Complete(h, steps, tree'))
  {
    IndexOfLocked(h, lock, hash);
    PromotionKeepsCoherence(h, Locked(h.m, h.naming, lock), tree, s);
  }

  lemma PromotionUnlocksOne(
    h: Host, lock: Lock, hash: Manifest -> string, tree: Tree, s: Step,
    scanned: seq<ScannedRepo>, scanned': seq<ScannedRepo>, id: Identity)
    requires Sound(h, lock, hash) && s in Locked(h.m, h.naming, lock) && id in Index(Locked(h.m, h.naming, lock))
    requires Coherent(h, Locked(h.m, h.naming, lock), tree) && HostPath(h, s, false) in tree
    requires IsScan(h.m, h.base, tree, scanned)
    requires IsScan(h.m, h.base, Promoted(tree, HostPath(h, s, false), HostPath(h, s, true)), scanned')
    ensures id in UnlockedIds(h, Index(Locked(h.m, h.naming, lock)), multiset(scanned')) <==>
      id == IdOf(s) || id in UnlockedIds(h, Index(Locked(h.m, h.naming, lock)), multiset(scanned))
  {
    var steps := Locked(h.m, h.naming, lock);
    IndexOfLocked(h, lock, hash);
    PromotedStaysCoherent(h, lock, hash, tree, s);
    UnlockedIsLinked(h, lock, hash, tree, scanned, id);
    UnlockedIsLinked(h, lock, hash, Promoted(tree, HostPath(h, s, false), HostPath(h, s, true)), scanned', id);
    if HostPath(h, Index(steps)[id], true) == HostPath(h, s, true) {
      HostPathInjective(h, steps, Index(steps)[id], s, true, true);
    }
  }

  /** One mount moves to its writable copy; the rest of the view, and every container path, stays. */
  ghost predicate OnlyMoves(before: seq<Mount>, after: seq<Mount>, s: Step, source: Path, dest: Path) {
    && |after| == |before|
    && (forall k :: 0 <= k < |before| && (before[k].layer, before[k].url) != IdOf(s) ==> after[k] == before[k])
    && (forall k :: 0 <= k < |before| && (before[k].layer, before[k].url) == IdOf(s) ==>
          before[k].source == source && before[k].readOnly && after[k] == before[k].(source := dest, readOnly := false))
  }

  /**
   Promoting a locked repository of a complete workspace: the view is still
   accepted, and only that repository's mount changes.
   */
  lemma PromotionMovesOneMount(
    h: Host, lock: Lock, hash: Manifest -> string, tree: Tree, s: Step, scanned: seq<ScannedRepo>,
    scanned': seq<ScannedRepo>)
    requires Sound(h, lock, hash) && s in Locked(h.m, h.naming, lock)
    requires Coherent(h, Locked(h.m, h.naming, lock), tree) && Complete(h, Locked(h.m, h.naming, lock), tree)
    requires HostPath(h, s, false) in tree && HostPath(h, s, true) !in tree
    requires IsScan(h.m, h.base, tree, scanned)
    requires IsScan(h.m, h.base, Promoted(tree, HostPath(h, s, false), HostPath(h, s, true)), scanned')
    ensures Accepts(h, lock, multiset(scanned), StateOf(h.base, h.m, scanned), hash)
    ensures Accepts(h, lock, multiset(scanned'), StateOf(h.base, h.m, scanned'), hash)
    ensures OnlyMoves(
      ViewOf(h, Locked(h.m, h.naming, lock), multiset(scanned)),
      ViewOf(h, Locked(h.m, h.naming, lock), multiset(scanned')),
      s, HostPath(h, s, false), HostPath(h, s, true))
  {
    var steps, tree' := Locked(h.m, h.naming, lock), Promoted(tree, HostPath(h, s, false), HostPath(h, s, true));
    var expected := Index(steps);
    PromotedStaysCoherent(h, lock, hash, tree, s);
    CoherentIsAcceptedIff(h, lock, hash, tree, scanned);
    CoherentIsAcceptedIff(h, lock, hash, tree', scanned');
    IndexOfLocked(h, lock, hash);
    SortedIdsAre(steps);
    forall id | id in expected
      ensures id in UnlockedIds(h, expected, multiset(scanned')) <==>
        id == IdOf(s) || id in UnlockedIds(h, expected, multiset(scanned))
    {
      PromotionUnlocksOne(h, lock, hash, tree, s, scanned, scanned', id);
    }
    UnlockedIsLinked(h, lock, hash, tree, scanned, IdOf(s));
    MovesOne(h, expected, UnlockedIds(h, expected, multiset(scanned)), UnlockedIds(h, expected, multiset(scanned')),
      SortIds(Ids(steps)), s);
  }

  lemma MovesOne(
    h: Host, expected: Expected, before: set<Identity>, after: set<Identity>, ids: seq<Identity>, s: Step)
    requires forall id :: id in ids ==> id in expected && IdOf(expected[id]) == id
    requires forall id :: id in expected ==> (id in after <==> id == IdOf(s) || id in before)
    requires IdOf(s) in expected && expected[IdOf(s)] == s && IdOf(s) !in before
    ensures OnlyMoves(View(h, expected, before, ids), View(h, expected, after, ids), s,
      HostPath(h, s, false), HostPath(h, s, true))
  {
    forall k | 0 <= k < |ids| ensures IdOf(expected[ids[k]]) == ids[k] { assert ids[k] in ids; }
  }

  // ------------------------------------------------------------------------
  // The commands
  // ------------------------------------------------------------------------

  datatype CommandError =
    | NotComposable(reason: CompositionError) | NoLockfile | Orphaned | BadScan
    | BlockedBy(entry: DriftEntry) | Workspace(error: WorkspaceError) | StillDrifting(entry: DriftEntry)

  /** Scans and compares with the lock. */
  method Inspect(provider: GitWorkspaceProvider, h: Host, lock: Lock, hash: Manifest -> string)
    returns (r: Option<DriftReport>, ghost scanned: seq<ScannedRepo>)
    ensures IsScan(h.m, h.base, provider.tree, scanned)
    ensures r.Some? <==> Recognised(h.base, h.m, scanned)
    ensures r.Some? ==>
      && (r.value.manifestLock == [] <==> lock.generatedFrom == hash(h.m))
      && (forall e :: e in r.value.manifestLock ==> e.MissingLock? || e.HashMismatch?)
      && r.value.lockState == LayersDrift(lock.gitLayers, StateOf(h.base, h.m, scanned))
  {
    var found := provider.Scan(h.m, h.base);
    scanned := found;
    var state := MaterializeState(h.base, h.m, found);
    if state.None? { return None, found; }
    var report := DetectDrift(h.m, Some(lock), state, hash);
    return Some(report), found;
  }

  /** The preflight: anything but missing checkouts blocks. */
  method FirstBlocking(report: DriftReport) returns (r: Option<DriftEntry>)
    ensures r.None? <==> forall e :: e in report.manifestLock + report.lockState ==> e.NotMaterialized?
  {
    var all := report.manifestLock + report.lockState;
    for i := 0 to |all|
      invariant forall j :: 0 <= j < i ==> all[j].NotMaterialized?
    {
      if !all[i].NotMaterialized? { return Some(all[i]); }
    }
    return None;
  }

  /**
   The project command.  On a coherent workspace the preflight never blocks, the
   result is coherent again however many clones fail, and success means that
   everything locked is there.
   */
  method ProjectCommand(
    provider: GitWorkspaceProvider, h: Host, lock: Option<Lock>, faults: set<nat>, hash: Manifest -> string)
    returns (error: Option<CommandError>)
    modifies provider
    ensures
      && lock.Some? && Sound(h, lock.value, hash)
      && Coherent(h, Locked(h.m, h.naming, lock.value), old(provider.tree))
      ==> Commanded(h, lock.value, old(provider.tree), provider.tree, faults, error)
  {
    var incoherent := Compose(h.m);
    if incoherent.Some? { return Some(NotComposable(incoherent.value)); }
    if lock.None? { return Some(NoLockfile); }
    var plan := PlanProjection(h.m, h.base, h.naming, lock.value);
    if plan.None? { return Some(Orphaned); }
    ghost var fine := Sound(h, lock.value, hash) && Coherent(h, Locked(h.m, h.naming, lock.value), provider.tree);
    ghost var before := provider.tree;
    var report, scanned := Inspect(provider, h, lock.value, hash);
    if fine {
      CoherentScanFits(h, lock.value, hash, before, scanned);
      CoherentOnlyLacks(h, lock.value, hash, before, scanned);
      ProjectionKeepsCoherence(h, lock.value, hash, before, faults, |plan.value|);
    }
    if report.None? { return Some(BadScan); }
    var blocking := FirstBlocking(report.value);
    if blocking.Some? { return Some(BlockedBy(blocking.value)); }
    var failed := provider.ProjectWorkspace(plan.value, faults);
    if failed.Some? { return Some(Workspace(failed.value)); }
    report, scanned := Inspect(provider, h, lock.value, hash);
    if fine {
      CoherentScanFits(h, lock.value, hash, provider.tree, scanned);
      CoherentIsCleanIff(h, lock.value, hash, provider.tree, scanned);
    }
    if report.None? { return Some(BadScan); }
    if !report.value.Clean() {
      var drift := report.value;
      return Some(StillDrifting(if drift.manifestLock != [] then drift.manifestLock[0] else drift.lockState[0]));
    }
    return None;
  }

  /** What the project command promises of a coherent workspace. */
  ghost predicate Commanded(
    h: Host, lock: Lock, before: Tree, after: Tree, faults: set<nat>, error: Option<CommandError>)
    requires Classified(h.m, lock.gitLayers)
  {
    && Coherent(h, Locked(h.m, h.naming, lock), after) && before.Keys <= after.Keys
    && (error.None? ==> Complete(h, Locked(h.m, h.naming, lock), after) && NoEmptyLayer(lock))
    && (error.Some? ==> error.value.Workspace? || error.value.StillDrifting?)
    && (faults == {} && NoEmptyLayer(lock) ==> error.None?)
  }

  ghost predicate NoEmptyGitLayer(m: Manifest) {
    forall l :: l in m.layers && l.Git? ==> l.repos != []
  }

  lemma LockedLayersAreNotEmpty(m: Manifest, lock: Lock)
    requires StripAll(lock.gitLayers) == ExpectedGit(m) && NoEmptyGitLayer(m)
    ensures NoEmptyLayer(lock)
  {
    LayerEntriesFrom(m, |m.layers|);
    forall l | l in lock.gitLayers ensures l.repos != [] {
      var i :| 0 <= i < |lock.gitLayers| && lock.gitLayers[i] == l;
      var e := StripAll(lock.gitLayers)[i];
      assert |e.repos| == |l.repos| && e in ExpectedGit(m);
      if e in LayerEntries(m, |m.layers|) {
        var k :| 0 <= k < |m.layers| && m.layers[k].Git? && e == EffectiveEntry(m, m.layers[k]);
        assert m.layers[k] in m.layers;
      }
    }
  }

  /**
   The whole pipeline, from an empty workspace: lock, project with any clones
   failing, look at the drift, project again, and plan the mounts.  After the
   interruption only missing checkouts are reported; after the rerun there is no
   drift and the mounts are accepted.
   */
  method LockProjectRerun(
    h: Host, resolve: Resolver, artifact: ArtifactResolver, hash: Manifest -> string, faults: set<nat>)
    returns (interrupted: Option<DriftReport>, rerun: Option<DriftReport>, mounts: Result<seq<Mount>, MountError>)
    requires WellNamed(h.m, h.naming) && NoEmptyGitLayer(h.m)
    requires Lockable(h.m, resolve, artifact) && Echoes(artifact)
    ensures interrupted.Some? && interrupted.value.manifestLock == []
    ensures forall e :: e in interrupted.value.lockState ==> e.NotMaterialized?
    ensures rerun.Some? && rerun.value.Clean()
    ensures mounts.Ok?
  {
    var built := BuildLock(h.m, resolve, artifact, hash);
    var lock := built.value;
    BuiltLockIsSound(h, lock, hash);
    LockedLayersAreNotEmpty(h.m, lock);
    var provider := new GitWorkspaceProvider();
    ghost var scanned;
    var _ := ProjectCommand(provider, h, Some(lock), faults, hash);
    interrupted, scanned := Inspect(provider, h, lock, hash);
    CoherentScanFits(h, lock, hash, provider.tree, scanned);
    CoherentOnlyLacks(h, lock, hash, provider.tree, scanned);
    var error := ProjectCommand(provider, h, Some(lock), {}, hash);
    assert error.None?;
    rerun, scanned := Inspect(provider, h, lock, hash);
    CoherentScanFits(h, lock, hash, provider.tree, scanned);
    CoherentIsCleanIff(h, lock, hash, provider.tree, scanned);
    mounts := PlanMounts(provider, h, lock, hash);
  }

  /** Scan, materialize and plan the mounts of a sound lock: a coherent workspace is accepted iff it is complete. */
  method PlanMounts(provider: GitWorkspaceProvider, h: Host, lock: Lock, hash: Manifest -> string)
    returns (r: Result<seq<Mount>, MountError>)
    requires Sound(h, lock, hash) && Coherent(h, Locked(h.m, h.naming, lock), provider.tree)
    ensures r.Ok? <==> Complete(h, Locked(h.m, h.naming, lock), provider.tree)
    ensures r.Ok? ==> exists scanned ::
      && IsScan(h.m, h.base, provider.tree, scanned)
      && r.value == ViewOf(h, Locked(h.m, h.naming, lock), multiset(scanned))
  {
    var scanned := provider.Scan(h.m, h.base);
    CoherentScanFits(h, lock, hash, provider.tree, scanned);
    CoherentIsAcceptedIff(h, lock, hash, provider.tree, scanned);
    var state := MaterializeState(h.base, h.m, scanned);
    r := BuildMountPlanningView(h, Some(lock), scanned, state.value, hash);
  }

  /** `unlock` of a declared repository: promotes what the lock's plan checked out. */
  method Unlock(provider: GitWorkspaceProvider, h: Host, layer: string, url: string, fails: bool)
    returns (r: Result<UnlockPlan, UnlockError>, error: Option<WorkspaceError>)
    modifies provider
    ensures r == PlanUnlock(h.m, h.base, h.naming, layer, url)
    ensures r.Err? ==> provider.tree == old(provider.tree)
    ensures r.Ok? ==> (error.None? <==>
      r.value.dest !in old(provider.tree) && IsCheckout(old(provider.tree), r.value.source) && !fails)
    ensures r.Ok? ==> (error == Some(AlreadyUnlocked) <==> r.value.dest in old(provider.tree))
    ensures provider.tree ==
      if r.Ok? && error.None? then Promoted(old(provider.tree), r.value.source, r.value.dest) else old(provider.tree)
  {
    error := None;
    r := PlanUnlock(h.m, h.base, h.naming, layer, url);
    if r.Ok? { error := provider.Promote(r.value.source, r.value.dest, fails); }
  }

  ghost predicate MovesDeclared(h: Host, layer: string, url: string, s: Step, before: seq<Mount>, after: seq<Mount>) {
    && IdOf(s) == (layer, EffectiveUrl(h.m, layer, url))
    && OnlyMoves(before, after, s, HostPath(h, s, false), HostPath(h, s, true))
  }

  /** On a complete workspace a locked repository without a worktree is a checkout under its root. */
  lemma PresentSourceIsCheckout(h: Host, steps: seq<Step>, tree: Tree, s: Step)
    requires Coherent(h, steps, tree) && Complete(h, steps, tree) && s in steps
    ensures HostPath(h, s, true) in tree || IsCheckout(tree, HostPath(h, s, false))
  {
    assert Present(h, s, tree);
    assert Reserved(h, steps, HostPath(h, s, false));
  }

  /**
   Unlocking a declared repository of a complete workspace goes through unless
   its worktree is already there.  The mount view is accepted before and after,
   and only that repository's mount moves.
   */
  method UnlockMovesOneMount(
    provider: GitWorkspaceProvider, h: Host, lock: Lock, hash: Manifest -> string, layer: string, url: string)
    returns (
      before: Result<seq<Mount>, MountError>, after: Result<seq<Mount>, MountError>, error: Option<WorkspaceError>)
    requires Sound(h, lock, hash) && forall l :: l in h.m.layers ==> l.name != "enterprise"
    requires Coherent(h, Locked(h.m, h.naming, lock), provider.tree)
    requires Complete(h, Locked(h.m, h.naming, lock), provider.tree)
    requires url in DeclaredUrls(h.m, layer)
    modifies provider
    ensures before.Ok? && after.Ok?
    ensures error.Some? ==> provider.tree == old(provider.tree)
    ensures var worktree := Target(h.base, Worktrees, layer, h.naming(EffectiveUrl(h.m, layer, url)));
      error == if worktree in old(provider.tree) then Some(AlreadyUnlocked) else None
    ensures error.None? ==>
      exists s :: s in Locked(h.m, h.naming, lock) && MovesDeclared(h, layer, url, s, before.value, after.value)
  {
    var s := UnlockSourceIsPlanned(h.m, CONTAINER_MOUNT_BASE, h.naming, lock, layer, url);
    IndexOfLocked(h, lock, hash);
    before := PlanMounts(provider, h, lock, hash);
    ghost var tree := provider.tree;
    ghost var scanned :| IsScan(h.m, h.base, tree, scanned)
      && before.value == ViewOf(h, Locked(h.m, h.naming, lock), multiset(scanned));
    var r;
    r, error := Unlock(provider, h, layer, url, false);
    assert r.value.source == HostPath(h, s, false) && r.value.dest == HostPath(h, s, true);
    PresentSourceIsCheckout(h, Locked(h.m, h.naming, lock), tree, s);
    if error.None? { PromotedStaysCoherent(h, lock, hash, tree, s); }
    after := PlanMounts(provider, h, lock, hash);
    if error.None? {
      ghost var scanned' :| IsScan(h.m, h.base, provider.tree, scanned')
        && after.value == ViewOf(h, Locked(h.m, h.naming, lock), multiset(scanned'));
      PromotionMovesOneMount(h, lock, hash, tree, s, scanned, scanned');
    }
  }
}
