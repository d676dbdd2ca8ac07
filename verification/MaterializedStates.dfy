/** What a scan says is on disk, by layer and repository, and how it drifts from the lock. */
module MaterializedStates {
  import opened Wrappers
  import opened Manifests
  import opened Projection

  datatype ScannedRepo = ScannedRepo(path: Path, url: string, commit: string)

  datatype MaterializedRepo = MaterializedRepo(url: string, commit: string)

  datatype MaterializedLayer = MaterializedLayer(name: string, repos: seq<MaterializedRepo>)

  type State = seq<MaterializedLayer>

  // ------------------------------------------------------------------------
  // Insertion-ordered dictionaries, as lists
  // ------------------------------------------------------------------------

  function PutRepo(repos: seq<MaterializedRepo>, url: string, commit: string): seq<MaterializedRepo> {
    if repos == [] then [MaterializedRepo(url, commit)]
    else if repos[0].url == url then [MaterializedRepo(url, commit)] + repos[1..]
    else [repos[0]] + PutRepo(repos[1..], url, commit)
  }

  function Put(state: State, layer: string, url: string, commit: string): State {
    if state == [] then [MaterializedLayer(layer, [MaterializedRepo(url, commit)])]
    else if state[0].name == layer then [MaterializedLayer(layer, PutRepo(state[0].repos, url, commit))] + state[1..]
    else [state[0]] + Put(state[1..], layer, url, commit)
  }

  ghost predicate UrlsDistinct(repos: seq<MaterializedRepo>) {
    forall i, j :: 0 <= i < j < |repos| ==> repos[i].url != repos[j].url
  }

  /** A dictionary of non-empty dictionaries. */
  ghost predicate IsDictionary(state: State) {
    && (forall i, j :: 0 <= i < j < |state| ==> state[i].name != state[j].name)
    && (forall l :: l in state ==> UrlsDistinct(l.repos) && l.repos != [])
  }

  ghost predicate Holds(state: State, layer: string, url: string, commit: string) {
    exists l :: l in state && l.name == layer && MaterializedRepo(url, commit) in l.repos
  }

  lemma {:induction false} PutRepoIs(repos: seq<MaterializedRepo>, url: string, commit: string)
    requires UrlsDistinct(repos)
    ensures UrlsDistinct(PutRepo(repos, url, commit)) && PutRepo(repos, url, commit) != []
    ensures forall r :: r in PutRepo(repos, url, commit) <==>
      r == MaterializedRepo(url, commit) || (r in repos && r.url != url)
    decreases |repos|
  {
    if repos != [] {
      assert repos == [repos[0]] + repos[1..];
      if repos[0].url != url {
        PutRepoIs(repos[1..], url, commit);
        var rest := PutRepo(repos[1..], url, commit);
        forall j | 0 <= j < |rest| ensures rest[j].url != repos[0].url { assert rest[j] in rest; }
      }
    }
  }

  lemma {:induction false} PutIs(state: State, layer: string, url: string, commit: string)
    requires IsDictionary(state)
    ensures IsDictionary(Put(state, layer, url, commit))
    ensures forall l :: l in Put(state, layer, url, commit) ==> l in state || l.name == layer
    ensures forall l :: l in state && l.name != layer ==> l in Put(state, layer, url, commit)
    ensures forall n, u, c :: Holds(Put(state, layer, url, commit), n, u, c) <==>
      if n == layer && u == url then c == commit else Holds(state, n, u, c)
    decreases |state|
  {
    var put := Put(state, layer, url, commit);
    if state == [] {
      var l := MaterializedLayer(layer, [MaterializedRepo(url, commit)]);
      assert put == [l] && l in put;
    } else if state[0].name == layer {
      PutHere(state, layer, url, commit);
    } else {
      assert state == [state[0]] + state[1..];
      assert IsDictionary(state[1..]) by {
        forall l | l in state[1..] ensures UrlsDistinct(l.repos) && l.repos != [] { assert l in state; }
      }
      PutIs(state[1..], layer, url, commit);
      var rest := Put(state[1..], layer, url, commit);
      forall j | 0 <= j < |rest| ensures rest[j].name != state[0].name { assert rest[j] in rest; }
      forall n, u, c ensures Holds(put, n, u, c) <==> HeadHolds(state[0], n, u, c) || Holds(rest, n, u, c) {
        HoldsSplits(state[0], rest, n, u, c);
      }
      forall n, u, c ensures Holds(state, n, u, c) <==> HeadHolds(state[0], n, u, c) || Holds(state[1..], n, u, c) {
        HoldsSplits(state[0], state[1..], n, u, c);
      }
    }
  }

  ghost predicate HeadHolds(l: MaterializedLayer, n: string, u: string, c: string) {
    l.name == n && MaterializedRepo(u, c) in l.repos
  }

  lemma HoldsSplits(l: MaterializedLayer, rest: State, n: string, u: string, c: string)
    ensures Holds([l] + rest, n, u, c) <==> HeadHolds(l, n, u, c) || Holds(rest, n, u, c)
  {
    if HeadHolds(l, n, u, c) {
      assert l in [l] + rest;
    }
    if Holds(rest, n, u, c) {
      var k :| k in rest && k.name == n && MaterializedRepo(u, c) in k.repos;
      assert k in [l] + rest;
    }
  }

  lemma PutHere(state: State, layer: string, url: string, commit: string)
    requires IsDictionary(state) && state != [] && state[0].name == layer
    ensures var put := Put(state, layer, url, commit);
      IsDictionary(put)
      && (forall l :: l in put ==> l in state || l.name == layer)
      && (forall l :: l in state && l.name != layer ==> l in put)
      && forall n, u, c :: Holds(put, n, u, c) <==>
        if n == layer && u == url then c == commit else Holds(state, n, u, c)
  {
    var head, rest := state[0], state[1..];
    assert state == [head] + rest;
    assert head in state;
    PutRepoIs(head.repos, url, commit);
    var head' := MaterializedLayer(layer, PutRepo(head.repos, url, commit));
    assert Put(state, layer, url, commit) == [head'] + rest;
    forall l | l in rest ensures l in state && l.name != layer {
      var j :| 0 <= j < |rest| && rest[j] == l;
      assert state[j + 1] == l;
    }
    forall n, u, c
      ensures Holds([head'] + rest, n, u, c) <==> if n == layer && u == url then c == commit else Holds(state, n, u, c)
    {
      HoldsSplits(head', rest, n, u, c);
      HoldsSplits(head, rest, n, u, c);
    }
  }

  // ------------------------------------------------------------------------
  // materialize_state
  // ------------------------------------------------------------------------

  type Entry = (string, ScannedRepo)

  function PutAll(es: seq<Entry>): State {
    if es == [] then [] else
      var e := es[|es| - 1];
      Put(PutAll(es[..|es| - 1]), e.0, e.1.url, e.1.commit)
  }

  function LastCommit(es: seq<Entry>, layer: string, url: string): Option<string> {
    if es == [] then None
    else if es[|es| - 1].0 == layer && es[|es| - 1].1.url == url then Some(es[|es| - 1].1.commit)
    else LastCommit(es[..|es| - 1], layer, url)
  }

  lemma {:induction false} PutAllHolds(es: seq<Entry>)
    ensures IsDictionary(PutAll(es))
    ensures forall n, u, c :: Holds(PutAll(es), n, u, c) <==> LastCommit(es, n, u) == Some(c)
    decreases |es|
  {
    if es != [] {
      var e := es[|es| - 1];
      PutAllHolds(es[..|es| - 1]);
      PutIs(PutAll(es[..|es| - 1]), e.0, e.1.url, e.1.commit);
    }
  }

  /** The scanned repositories that lie under the worktree root, or those that do not, with their layers. */
  function Entries(base: Path, m: Manifest, scanned: seq<ScannedRepo>, worktree: bool): seq<Entry> {
    if scanned == [] then [] else
      var s := scanned[|scanned| - 1];
      var at := MatchOf(base, m, s.path);
      Entries(base, m, scanned[..|scanned| - 1], worktree)
      + if at.Some? && (at.value.0 == Worktrees) == worktree then [(at.value.1, s)] else []
  }

  predicate Recognised(base: Path, m: Manifest, scanned: seq<ScannedRepo>) {
    forall s :: s in scanned ==> MatchOf(base, m, s.path).Some?
  }

  function StateOf(base: Path, m: Manifest, scanned: seq<ScannedRepo>): State {
    PutAll(Entries(base, m, scanned, false) + Entries(base, m, scanned, true))
  }

  lemma {:induction false} PutAllFrom(a: seq<Entry>, e: Entry)
    ensures PutAll(a + [e]) == Put(PutAll(a), e.0, e.1.url, e.1.commit)
  {
    assert (a + [e])[..|a|] == a;
  }

  lemma EntriesSnoc(base: Path, m: Manifest, seen: seq<ScannedRepo>, s: ScannedRepo, worktree: bool)
    ensures var at := MatchOf(base, m, s.path);
      Entries(base, m, seen + [s], worktree) ==
        if at.Some? && (at.value.0 == Worktrees) == worktree then Entries(base, m, seen, worktree) + [(at.value.1, s)]
        else Entries(base, m, seen, worktree)
  {
    assert (seen + [s])[..|seen|] == seen;
  }

  /** The worktree entries go in last. */
  method PutWorktrees(state: State, ghost readOnly: seq<Entry>, worktrees: seq<Entry>) returns (r: State)
    requires state == PutAll(readOnly)
    ensures r == PutAll(readOnly + worktrees)
  {
    r := state;
    assert readOnly + worktrees[..0] == readOnly;
    for i := 0 to |worktrees|
      invariant r == PutAll(readOnly + worktrees[..i])
    {
      PutAllFrom(readOnly + worktrees[..i], worktrees[i]);
      assert readOnly + worktrees[..i] + [worktrees[i]] == readOnly + worktrees[..i + 1];
      r := Put(r, worktrees[i].0, worktrees[i].1.url, worktrees[i].1.commit);
    }
    assert worktrees[..|worktrees|] == worktrees;
  }

  /** What has been collected once `seen` has been walked through. */
  ghost predicate Collected(base: Path, m: Manifest, seen: seq<ScannedRepo>, state: State, worktrees: seq<Entry>) {
    && Recognised(base, m, seen)
    && state == PutAll(Entries(base, m, seen, false)) && worktrees == Entries(base, m, seen, true)
  }

  lemma CollectWorktree(
    base: Path, m: Manifest, seen: seq<ScannedRepo>, s: ScannedRepo, state: State, worktrees: seq<Entry>)
    requires Collected(base, m, seen, state, worktrees)
    requires MatchOf(base, m, s.path).Some? && MatchOf(base, m, s.path).value.0 == Worktrees
    ensures Collected(base, m, seen + [s], state, worktrees + [(MatchOf(base, m, s.path).value.1, s)])
  {
    EntriesSnoc(base, m, seen, s, false);
    EntriesSnoc(base, m, seen, s, true);
  }

  lemma CollectReadOnly(
    base: Path, m: Manifest, seen: seq<ScannedRepo>, s: ScannedRepo, state: State, worktrees: seq<Entry>)
    requires Collected(base, m, seen, state, worktrees)
    requires MatchOf(base, m, s.path).Some? && MatchOf(base, m, s.path).value.0 != Worktrees
    ensures Collected(base, m, seen + [s], Put(state, MatchOf(base, m, s.path).value.1, s.url, s.commit), worktrees)
  {
    EntriesSnoc(base, m, seen, s, false);
    EntriesSnoc(base, m, seen, s, true);
    PutAllFrom(Entries(base, m, seen, false), (MatchOf(base, m, s.path).value.1, s));
  }

  /** One pass: read-only checkouts are put at once, worktrees are kept for later. */
  method Collect(base: Path, m: Manifest, scanned: seq<ScannedRepo>)
    returns (ok: bool, state: State, worktrees: seq<Entry>)
    ensures ok <==> Recognised(base, m, scanned)
    ensures ok ==> Collected(base, m, scanned, state, worktrees)
  {
    state, worktrees := [], [];
    for i := 0 to |scanned|
      invariant Collected(base, m, scanned[..i], state, worktrees)
    {
      var s := scanned[i];
      assert scanned[..i + 1] == scanned[..i] + [s];
      var at := MatchRootAndLayer(base, m, s.path);
      if at.None? {
        assert s in scanned;
        return false, [], [];
      }
      if at.value.0 == Worktrees {
        CollectWorktree(base, m, scanned[..i], s, state, worktrees);
        worktrees := worktrees + [(at.value.1, s)];
      } else {
        CollectReadOnly(base, m, scanned[..i], s, state, worktrees);
        state := Put(state, at.value.1, s.url, s.commit);
      }
    }
    assert scanned[..|scanned|] == scanned;
    return true, state, worktrees;
  }

  /** Worktrees go in last, so that a promoted copy wins whatever the scan order. */
  method MaterializeState(base: Path, m: Manifest, scanned: seq<ScannedRepo>) returns (r: Option<State>)
    ensures r == if Recognised(base, m, scanned) then Some(StateOf(base, m, scanned)) else None
  {
    var ok, state, worktrees := Collect(base, m, scanned);
    if !ok { return None; }
    state := PutWorktrees(state, Entries(base, m, scanned, false), worktrees);
    return Some(state);
  }

  /** `s` is evidence for a repository of a layer, as its writable or its read-only copy. */
  predicate Evidences(base: Path, m: Manifest, s: ScannedRepo, worktree: bool, layer: string, url: string) {
    var at := MatchOf(base, m, s.path);
    at.Some? && (at.value.0 == Worktrees) == worktree && at.value.1 == layer && s.url == url
  }

  lemma {:induction false} EntriesAre(base: Path, m: Manifest, scanned: seq<ScannedRepo>, worktree: bool)
    ensures forall e :: e in Entries(base, m, scanned, worktree) ==>
      e.1 in scanned && Evidences(base, m, e.1, worktree, e.0, e.1.url)
    ensures forall s, layer, url :: s in scanned && Evidences(base, m, s, worktree, layer, url) ==>
      (layer, s) in Entries(base, m, scanned, worktree)
    decreases |scanned|
  {
    if scanned != [] {
      var s := scanned[|scanned| - 1];
      assert scanned == scanned[..|scanned| - 1] + [s];
      EntriesAre(base, m, scanned[..|scanned| - 1], worktree);
    }
  }

  lemma {:induction false} LastCommitIs(es: seq<Entry>, layer: string, url: string)
    ensures LastCommit(es, layer, url).Some? ==>
      exists e :: e in es && e.0 == layer && e.1.url == url && e.1.commit == LastCommit(es, layer, url).value
    ensures LastCommit(es, layer, url).None? ==> forall e :: e in es ==> !(e.0 == layer && e.1.url == url)
    decreases |es|
  {
    if es != [] {
      assert es == es[..|es| - 1] + [es[|es| - 1]];
      LastCommitIs(es[..|es| - 1], layer, url);
    }
  }

  lemma {:induction false} LastCommitAppends(a: seq<Entry>, b: seq<Entry>, layer: string, url: string)
    ensures LastCommit(a + b, layer, url)
         == if LastCommit(b, layer, url).Some? then LastCommit(b, layer, url) else LastCommit(a, layer, url)
    decreases |b|
  {
    if b == [] {
      assert a + b == a;
    } else {
      assert (a + b)[..|a + b| - 1] == a + b[..|b| - 1];
      LastCommitAppends(a, b[..|b| - 1], layer, url);
    }
  }

  /** Some scanned worktree evidences the repository. */
  predicate Unlocked(base: Path, m: Manifest, scanned: seq<ScannedRepo>, layer: string, url: string) {
    exists t :: t in scanned && Evidences(base, m, t, true, layer, url)
  }

  /** The last commit of a kind of entry is that of some evidence; there is none exactly without evidence. */
  lemma LastEvidence(base: Path, m: Manifest, scanned: seq<ScannedRepo>, worktree: bool, layer: string, url: string)
    ensures var last := LastCommit(Entries(base, m, scanned, worktree), layer, url);
      if last.Some?
      then exists s :: s in scanned && Evidences(base, m, s, worktree, layer, url) && s.commit == last.value
      else forall s :: s in scanned ==> !Evidences(base, m, s, worktree, layer, url)
  {
    var es := Entries(base, m, scanned, worktree);
    EntriesAre(base, m, scanned, worktree);
    LastCommitIs(es, layer, url);
    if LastCommit(es, layer, url).Some? {
      var e :| e in es && e.0 == layer && e.1.url == url && e.1.commit == LastCommit(es, layer, url).value;
      assert e.1 in scanned && Evidences(base, m, e.1, worktree, layer, url);
    } else {
      forall s | s in scanned && s.url == url ensures !Evidences(base, m, s, worktree, layer, url) {
        assert (layer, s) !in es;
      }
    }
  }

  /**
   A state holds the commit of some worktree evidence; without any, that of some
   read-only evidence; and without either, nothing.
   */
  lemma StateHolds(base: Path, m: Manifest, scanned: seq<ScannedRepo>, layer: string, url: string)
    ensures IsDictionary(StateOf(base, m, scanned))
    ensures forall c :: Holds(StateOf(base, m, scanned), layer, url, c) ==>
      exists s :: s in scanned && s.commit == c
        && Evidences(base, m, s, Unlocked(base, m, scanned, layer, url), layer, url)
    ensures (exists c :: Holds(StateOf(base, m, scanned), layer, url, c)) <==> Evidenced(base, m, scanned, layer, url)
  {
    var a, b := Entries(base, m, scanned, false), Entries(base, m, scanned, true);
    PutAllHolds(a + b);
    LastCommitAppends(a, b, layer, url);
    LastEvidence(base, m, scanned, true, layer, url);
    LastEvidence(base, m, scanned, false, layer, url);
    if LastCommit(a + b, layer, url).Some? {
      assert Holds(PutAll(a + b), layer, url, LastCommit(a + b, layer, url).value);
    }
  }

  predicate Evidenced(base: Path, m: Manifest, scanned: seq<ScannedRepo>, layer: string, url: string) {
    exists s :: s in scanned
      && (Evidences(base, m, s, true, layer, url) || Evidences(base, m, s, false, layer, url))
  }

  // ------------------------------------------------------------------------
  // Drift
  // ------------------------------------------------------------------------

  datatype DriftEntry =
    | MissingLock
    | HashMismatch(expected: string, actual: string)
    | NotMaterialized(layer: string, repo: Option<string>)
    | CommitMismatch(layer: string, repo: Option<string>, expected: string, actual: string)

  function FindLayer(state: State, name: string): (r: Option<MaterializedLayer>)
    ensures r.Some? ==> r.value in state && r.value.name == name
    ensures r.None? <==> forall l :: l in state ==> l.name != name
  {
    LastNamed(state, (l: MaterializedLayer) => l.name, name)
  }

  function FindRepo(repos: seq<MaterializedRepo>, url: string): (r: Option<string>)
    ensures r.Some? ==> MaterializedRepo(url, r.value) in repos
    ensures r.None? <==> forall x :: x in repos ==> x.url != url
  {
    if repos == [] then None
    else if repos[|repos| - 1].url == url then Some(repos[|repos| - 1].commit)
    else FindRepo(repos[..|repos| - 1], url)
  }

  function RepoDrift(layer: string, r: ResolvedRepo, repos: seq<MaterializedRepo>): seq<DriftEntry> {
    match FindRepo(repos, r.url)
    case None => [NotMaterialized(layer, Some(r.url))]
    case Some(c) => if c == r.commit then [] else [CommitMismatch(layer, Some(r.url), r.commit, c)]
  }

  function ReposDrift(layer: string, rs: seq<ResolvedRepo>, repos: seq<MaterializedRepo>): seq<DriftEntry> {
    if rs == [] then [] else ReposDrift(layer, rs[..|rs| - 1], repos) + RepoDrift(layer, rs[|rs| - 1], repos)
  }

  function LayerDrift(l: ResolvedLayer, state: State): seq<DriftEntry> {
    match FindLayer(state, l.name)
    case None => [NotMaterialized(l.name, None)]
    case Some(found) => ReposDrift(l.name, l.repos, found.repos)
  }

  function LayersDrift(ls: seq<ResolvedLayer>, state: State): seq<DriftEntry> {
    if ls == [] then [] else LayersDrift(ls[..|ls| - 1], state) + LayerDrift(ls[|ls| - 1], state)
  }

  datatype DriftReport = DriftReport(manifestLock: seq<DriftEntry>, lockState: seq<DriftEntry>) {
    predicate Clean() { manifestLock == [] && lockState == [] }
  }

  method RepositoryDrift(layer: string, rs: seq<ResolvedRepo>, repos: seq<MaterializedRepo>)
    returns (drift: seq<DriftEntry>)
    ensures drift == ReposDrift(layer, rs, repos)
  {
    drift := [];
    for j := 0 to |rs|
      invariant drift == ReposDrift(layer, rs[..j], repos)
    {
      assert rs[..j + 1][..j] == rs[..j];
      var r := rs[j];
      var c := FindRepo(repos, r.url);
      if c.None? {
        drift := drift + [NotMaterialized(layer, Some(r.url))];
      } else if c.value != r.commit {
        drift := drift + [CommitMismatch(layer, Some(r.url), r.commit, c.value)];
      }
    }
    assert rs[..|rs|] == rs;
  }

  method LockStateDrift(ls: seq<ResolvedLayer>, state: State) returns (drift: seq<DriftEntry>)
    ensures drift == LayersDrift(ls, state)
  {
    drift := [];
    for i := 0 to |ls|
      invariant drift == LayersDrift(ls[..i], state)
    {
      assert ls[..i + 1][..i] == ls[..i];
      var l := ls[i];
      var found := FindLayer(state, l.name);
      if found.None? {
        drift := drift + [NotMaterialized(l.name, None)];
      } else {
        var repos := RepositoryDrift(l.name, l.repos, found.value.repos);
        drift := drift + repos;
      }
    }
    assert ls[..|ls|] == ls;
  }

  /** Each half is reported on its own; without a lock or a state there is no lock-to-state drift. */
  method DetectDrift(m: Manifest, lock: Option<Lock>, state: Option<State>, hash: Manifest -> string)
    returns (r: DriftReport)
    ensures r.manifestLock == [] <==> lock.Some? && lock.value.generatedFrom == hash(m)
    ensures forall e :: e in r.manifestLock ==> e.MissingLock? || e.HashMismatch?
    ensures r.lockState == if lock.Some? && state.Some? then LayersDrift(lock.value.gitLayers, state.value) else []
  {
    var manifestLock :=
      if lock.None? then [MissingLock]
      else if lock.value.generatedFrom != hash(m) then [HashMismatch(hash(m), lock.value.generatedFrom)]
      else [];
    var lockState := [];
    if lock.Some? && state.Some? {
      lockState := LockStateDrift(lock.value.gitLayers, state.value);
    }
    return DriftReport(manifestLock, lockState);
  }

  lemma {:induction false} ReposDriftIn(layer: string, rs: seq<ResolvedRepo>, repos: seq<MaterializedRepo>)
    ensures forall e :: e in ReposDrift(layer, rs, repos) <==> exists r :: r in rs && e in RepoDrift(layer, r, repos)
    decreases |rs|
  {
    if rs != [] {
      assert rs == rs[..|rs| - 1] + [rs[|rs| - 1]];
      ReposDriftIn(layer, rs[..|rs| - 1], repos);
    }
  }

  lemma {:induction false} LayersDriftIn(ls: seq<ResolvedLayer>, state: State)
    ensures forall e :: e in LayersDrift(ls, state) <==> exists l :: l in ls && e in LayerDrift(l, state)
    decreases |ls|
  {
    if ls != [] {
      assert ls == ls[..|ls| - 1] + [ls[|ls| - 1]];
      LayersDriftIn(ls[..|ls| - 1], state);
    }
  }

  /** The state holds at most one commit per layer and url, and lookups find it. */
  lemma FindIs(state: State, layer: string, url: string)
    requires IsDictionary(state)
    ensures FindLayer(state, layer).Some? ==> forall c ::
      Holds(state, layer, url, c) <==> FindRepo(FindLayer(state, layer).value.repos, url) == Some(c)
    ensures FindLayer(state, layer).None? ==> forall c :: !Holds(state, layer, url, c)
  {
    if FindLayer(state, layer).Some? {
      var l := FindLayer(state, layer).value;
      forall c ensures Holds(state, layer, url, c) <==> FindRepo(l.repos, url) == Some(c) {
        if Holds(state, layer, url, c) {
          var k :| k in state && k.name == layer && MaterializedRepo(url, c) in k.repos;
          assert k == l;
          assert FindRepo(l.repos, url).Some?;
        }
      }
    }
  }

  /** The state neither contradicts the lock nor knows an empty layer. */
  ghost predicate Agrees(ls: seq<ResolvedLayer>, state: State) {
    forall l, r, c :: l in ls && r in l.repos && Holds(state, l.name, r.url, c) ==> c == r.commit
  }

  /** Where the state never contradicts the lock, drift can only be something not yet materialized. */
  lemma AgreementOnlyLacks(ls: seq<ResolvedLayer>, state: State)
    requires IsDictionary(state) && Agrees(ls, state)
    ensures forall e :: e in LayersDrift(ls, state) ==> e.NotMaterialized?
  {
    LayersDriftIn(ls, state);
    forall e | e in LayersDrift(ls, state) ensures e.NotMaterialized? {
      var l :| l in ls && e in LayerDrift(l, state);
      if FindLayer(state, l.name).Some? {
        var repos := FindLayer(state, l.name).value.repos;
        ReposDriftIn(l.name, l.repos, repos);
        var r :| r in l.repos && e in RepoDrift(l.name, r, repos);
        FindIs(state, l.name, r.url);
      }
    }
  }

  /** No drift means exactly: every locked layer is there, and every locked repository at its commit. */
  lemma CleanIff(ls: seq<ResolvedLayer>, state: State)
    requires IsDictionary(state)
    ensures LayersDrift(ls, state) == [] <==>
      forall l :: l in ls ==> FindLayer(state, l.name).Some? && forall r :: r in l.repos ==>
        Holds(state, l.name, r.url, r.commit)
  {
    LayersDriftIn(ls, state);
    forall l | l in ls
      ensures LayerDrift(l, state) == [] <==>
        FindLayer(state, l.name).Some? && forall r :: r in l.repos ==> Holds(state, l.name, r.url, r.commit)
    {
      if FindLayer(state, l.name).Some? {
        var repos := FindLayer(state, l.name).value.repos;
        ReposDriftIn(l.name, l.repos, repos);
        forall r | r in l.repos ensures RepoDrift(l.name, r, repos) == [] <==> Holds(state, l.name, r.url, r.commit) {
          FindIs(state, l.name, r.url);
        }
        if r :| r in l.repos && RepoDrift(l.name, r, repos) != [] {
          assert RepoDrift(l.name, r, repos)[0] in ReposDrift(l.name, l.repos, repos);
        }
        if ReposDrift(l.name, l.repos, repos) != [] {
          assert ReposDrift(l.name, l.repos, repos)[0] in ReposDrift(l.name, l.repos, repos);
        }
      }
    }
    if l :| l in ls && LayerDrift(l, state) != [] {
      assert LayerDrift(l, state)[0] in LayersDrift(ls, state);
    }
    if LayersDrift(ls, state) != [] {
      assert LayersDrift(ls, state)[0] in LayersDrift(ls, state);
    }
  }
}
