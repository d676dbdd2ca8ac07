/**
 The workspace on disk and the whole pipeline over it: projecting a lock,
 scanning, drift, the mount view, and promotion to a writable worktree.
 */
module Workspaces {
  import opened Wrappers
  import opened Manifests
  import opened Projection
  import opened MaterializedStates
  import opened MountView

  /** What lies at a path: a git checkout, or something that is none. */
  datatype Checkout = Checkout(url: string, commit: string, linked: bool, dirty: bool) | Foreign

  type Tree = map<Path, Checkout>

  datatype WorkspaceError =
    NoCheckout | LinkedWorktree | DirtyCheckout | CloneFailed | AlreadyUnlocked | PromotionFailed

  /** One checkout on a tree: a linked worktree or a dirty checkout is never overwritten. */
  function CheckedOut(tree: Tree, url: string, commit: string, dest: Path, fails: bool): Result<Tree, WorkspaceError> {
    if dest in tree && tree[dest].Foreign? then Err(NoCheckout)
    else if dest in tree && tree[dest].linked then Err(LinkedWorktree)
    else if dest in tree && tree[dest].commit == commit then Ok(tree)
    else if dest in tree && tree[dest].dirty then Err(DirtyCheckout)
    else if fails then Err(CloneFailed)
    else Ok(tree[dest := Checkout(url, commit, false, false)])
  }

  /** One more step of a projection; after a failure nothing more happens. */
  function Stepped(p: (Tree, Option<WorkspaceError>), s: Step, fails: bool): (Tree, Option<WorkspaceError>) {
    if p.1.Some? then p else
      match CheckedOut(p.0, s.url, s.commit, s.target, fails)
      case Ok(t) => (t, None)
      case Err(e) => (p.0, Some(e))
  }

  /** The tree after the first `n` steps, or after the ones before the first failure. */
  function Projected(tree: Tree, steps: seq<Step>, faults: set<nat>, n: nat): (Tree, Option<WorkspaceError>)
    requires n <= |steps|
  {
    if n == 0 then (tree, None) else
      Stepped(Projected(tree, steps, faults, n - 1), steps[n - 1], n - 1 in faults)
  }

  function Scanned(tree: Tree, p: Path): ScannedRepo
    requires p in tree && tree[p].Checkout?
  {
    ScannedRepo(p, tree[p].url, tree[p].commit)
  }

  /** The walk from `root` meets no checkout before `p`: it does not go on below one. */
  predicate Reached(tree: Tree, root: Path, p: Path) {
    root <= p && forall q :: q in tree && tree[q].Checkout? && root <= q ==> !(q < p)
  }

  /** A checkout under a mount root, and not inside another checkout there. */
  predicate Found(m: Manifest, base: Path, tree: Tree, p: Path) {
    && p in tree && tree[p].Checkout?
    && var root := RootUnder(base, m, p);
    root.Some? && Reached(tree, RootPath(base, root.value), p)
  }

  /** A scan finds every outermost checkout under a mount root once, in whatever order, and no other. */
  ghost predicate IsScan(m: Manifest, base: Path, tree: Tree, scanned: seq<ScannedRepo>) {
    && (forall i, j :: 0 <= i < j < |scanned| ==> scanned[i].path != scanned[j].path)
    && (forall s :: s in scanned ==> Found(m, base, tree, s.path) && s == Scanned(tree, s.path))
    && (forall p :: p in tree && Found(m, base, tree, p) ==> Scanned(tree, p) in scanned)
  }

  class GitWorkspaceProvider {
    var tree: Tree

    constructor ()
      ensures tree == map[]
    {
      tree := map[];
    }

    method CheckOut(url: string, commit: string, dest: Path, fails: bool) returns (error: Option<WorkspaceError>)
      modifies this
      ensures error == match CheckedOut(old(tree), url, commit, dest, fails) case Ok(_) => None case Err(e) => Some(e)
      ensures tree == match CheckedOut(old(tree), url, commit, dest, fails) case Ok(t) => t case Err(_) => old(tree)
    {
      if dest in tree {
        if tree[dest].Foreign? { return Some(NoCheckout); }
        if tree[dest].linked { return Some(LinkedWorktree); }
        if tree[dest].commit == commit { return None; }
        if tree[dest].dirty { return Some(DirtyCheckout); }
      }
      if fails { return Some(CloneFailed); }
      tree := tree[dest := Checkout(url, commit, false, false)];
      return None;
    }

    /** `project_workspace`: steps in order, the first failure ends it. */
    method ProjectWorkspace(steps: seq<Step>, faults: set<nat>) returns (error: Option<WorkspaceError>)
      modifies this
      ensures (tree, error) == Projected(old(tree), steps, faults, |steps|)
    {
      for i := 0 to |steps|
        invariant (tree, None) == Projected(old(tree), steps, faults, i)
      {
        error := CheckOut(steps[i].url, steps[i].commit, steps[i].target, i in faults);
        if error.Some? {
          StaysFailed(old(tree), steps, faults, i + 1);
          return;
        }
      }
      error := None;
    }

    method Scan(m: Manifest, base: Path) returns (scanned: seq<ScannedRepo>)
      ensures IsScan(m, base, tree, scanned)
    {
      var roots := BuildMountRoots(base, m);
      scanned := [];
      var left := tree.Keys;
      while left != {}
        invariant left <= tree.Keys
        invariant forall i, j :: 0 <= i < j < |scanned| ==> scanned[i].path != scanned[j].path
        invariant forall s :: s in scanned ==>
          Found(m, base, tree, s.path) && s.path !in left && s == Scanned(tree, s.path)
        invariant forall p :: p in tree && Found(m, base, tree, p) && p !in left ==> Scanned(tree, p) in scanned
        decreases |left|
      {
        var p :| p in left;
        left := left - {p};
        ReachedFromSomeRoot(m, base, tree, p);
        assert forall r :: r in KnownRoots(m) ==> r in roots && roots[r] == RootPath(base, r);
        if tree[p].Checkout? && exists r :: r in roots && Reached(tree, roots[r], p) {
          scanned := scanned + [Scanned(tree, p)];
        }
      }
    }

    /** A worktree of the source's checkout; the source itself is left as it is. */
    method Promote(source: Path, dest: Path, fails: bool) returns (error: Option<WorkspaceError>)
      modifies this
      ensures error.None? <==> dest !in old(tree) && source in old(tree) && old(tree)[source].Checkout? && !fails
      ensures error == Some(AlreadyUnlocked) <==> dest in old(tree)
      ensures tree
           == if error.None? then old(tree)[dest := old(tree)[source].(linked := true, dirty := false)] else old(tree)
    {
      if dest in tree { return Some(AlreadyUnlocked); }
      if fails || source !in tree || tree[source].Foreign? { return Some(PromotionFailed); }
      tree := tree[dest := tree[source].(linked := true, dirty := false)];
      return None;
    }
  }

  lemma ReachedFromSomeRoot(m: Manifest, base: Path, tree: Tree, p: Path)
    requires p in tree
    ensures Found(m, base, tree, p) <==>
      tree[p].Checkout? && exists r :: r in KnownRoots(m) && Reached(tree, RootPath(base, r), p)
  {
    forall r | r in KnownRoots(m) ensures RootPath(base, r) <= p <==> RootUnder(base, m, p) == Some(r) {
      RootIsUnique(base, m, p, r);
    }
  }

  lemma {:induction false} StaysFailed(tree: Tree, steps: seq<Step>, faults: set<nat>, n: nat)
    requires n <= |steps| && Projected(tree, steps, faults, n).1.Some?
    ensures Projected(tree, steps, faults, |steps|) == Projected(tree, steps, faults, n)
    decreases |steps| - n
  {
    if n < |steps| { StaysFailed(tree, steps, faults, n + 1); }
  }
}
