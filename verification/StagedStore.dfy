/**
 The content-addressed staging store.  A blob is filed under its digest, a
 manifest under its reference; `Discard` removes a manifest and the blobs no
 other readable manifest names.
 */
module StagedStore {
  import opened Wrappers

  type Ref = string

  newtype byte = b: int | 0 <= b < 256

  type Bytes = seq<byte>

  datatype Algorithm = Sha256 | Sha512

  datatype Digest = Digest(algorithm: Algorithm, hex: string) {
    /** Blob files are named by the lower-case digest. */
    function Key(): Digest { Digest(algorithm, Lower(hex)) }
  }

  function LowerChar(c: char): char {
    if 'A' <= c <= 'Z' then c - 'A' + 'a' else c
  }

  function Lower(s: string): string {
    seq(|s|, i requires 0 <= i < |s| => LowerChar(s[i]))
  }

  datatype Kind = Database | Filestore

  datatype Component = Component(kind: Kind, opaqueRef: string, formatVersion: string, digest: Digest)

  datatype ManifestData = ManifestData(restoreSetId: Ref, lineageId: string, components: seq<Component>) {
    predicate WellFormed() {
      && |components| == 2
      && ((components[0].kind == Database && components[1].kind == Filestore)
          || (components[0].kind == Filestore && components[1].kind == Database))
    }

    ghost predicate Names(key: Digest) {
      exists c :: c in components && c.digest.Key() == key
    }
  }

  /** Exactly one database and one filestore component, in either order. */
  type Manifest = m: ManifestData | m.WellFormed() witness
    ManifestData("", "", [Component(Database, "", "", Digest(Sha256, "")),
                          Component(Filestore, "", "", Digest(Sha256, ""))])

  /** What a manifest file holds: a manifest, unparsable text, or a file whose custody is broken. */
  datatype ManifestFile = Readable(manifest: Manifest) | Corrupt | Unsafe

  datatype StoreError = Custody | Unavailable | Integrity | State

  /** `residuals` empty stands for COMPLETED, anything else for RESIDUAL_FAILURE. */
  datatype DiscardOutcome = DiscardOutcome(residuals: seq<string>)

  /** Which unlink calls fail: component positions, and the manifest file itself. */
  datatype DiscardFaults = DiscardFaults(blobs: set<nat>, manifest: bool)

  const NO_FAULTS := DiscardFaults({}, false)

  datatype StoreState = StoreState(blobs: map<Digest, Bytes>, manifests: map<Ref, ManifestFile>) {
    predicate Resolves(ref: Ref) { ref in manifests && manifests[ref].Readable? }

    ghost predicate NamesAt(ref: Ref, key: Digest) {
      Resolves(ref) && manifests[ref].manifest.Names(key)
    }

    /** An already staged blob is kept as it is. */
    function Staged(key: Digest, bytes: Bytes): StoreState {
      if key in blobs then this else this.(blobs := blobs[key := bytes])
    }

    function Put(ref: Ref, m: Manifest): StoreState {
      this.(manifests := manifests[ref := Readable(m)])
    }

    function Without(ref: Ref): StoreState {
      this.(manifests := map r | r in manifests && r != ref :: manifests[r])
    }

    /** The digests named by every other readable manifest. */
    ghost predicate ReferencedElsewhere(ref: Ref, key: Digest) {
      exists r :: r != ref && NamesAt(r, key)
    }

    /** No blob is kept that no readable manifest names. */
    ghost predicate NoOrphans() {
      forall key :: key in blobs ==> exists r :: NamesAt(r, key)
    }
  }

  // ------------------------------------------------------------------------
  // What `discard` does to the store
  // ------------------------------------------------------------------------

  /** Component `i` is unlinked by `discard(ref)`: nobody else names it and the call succeeds. */
  ghost predicate Unlinks(s: StoreState, ref: Ref, f: DiscardFaults, i: nat)
    requires s.Resolves(ref) && i < 2
  {
    i !in f.blobs && !s.ReferencedElsewhere(ref, s.manifests[ref].manifest.components[i].digest.Key())
  }

  ghost predicate UnlinkFails(s: StoreState, ref: Ref, f: DiscardFaults, i: nat)
    requires s.Resolves(ref) && i < 2
  {
    i in f.blobs && !s.ReferencedElsewhere(ref, s.manifests[ref].manifest.components[i].digest.Key())
  }

  ghost predicate Unlinked(s: StoreState, ref: Ref, f: DiscardFaults, key: Digest)
    requires s.Resolves(ref)
  {
    exists i: nat :: i < 2 && Unlinks(s, ref, f, i) && s.manifests[ref].manifest.components[i].digest.Key() == key
  }

  ghost function Discarded(s: StoreState, ref: Ref, f: DiscardFaults): StoreState {
    if ref !in s.manifests || s.manifests[ref].Unsafe? then s
    else
      var kept := if s.manifests[ref].Corrupt? then s else
        s.(blobs := map k | k in s.blobs && !Unlinked(s, ref, f, k) :: s.blobs[k]);
      if f.manifest then kept else kept.Without(ref)
  }

  ghost function DiscardResult(s: StoreState, ref: Ref, f: DiscardFaults): Result<DiscardOutcome, StoreError> {
    if ref !in s.manifests then Ok(DiscardOutcome([]))
    else if s.manifests[ref].Unsafe? then Err(Custody)
    else
      var fromBlobs := if s.manifests[ref].Corrupt? then [] else ResidualIds(s, ref, f, 2);
      Ok(DiscardOutcome(fromBlobs + (if f.manifest then [ref] else [])))
  }

  ghost function ResidualIds(s: StoreState, ref: Ref, f: DiscardFaults, n: nat): seq<string>
    requires s.Resolves(ref) && n <= 2
  {
    if n == 0 then [] else
      ResidualIds(s, ref, f, n - 1)
      + (if UnlinkFails(s, ref, f, n - 1) then [s.manifests[ref].manifest.components[n - 1].opaqueRef] else [])
  }

  // ------------------------------------------------------------------------
  // The store
  // ------------------------------------------------------------------------

  class StagedArtifactStore {
    const hash: (Algorithm, Bytes) -> string
    var blobs: map<Digest, Bytes>
    var manifests: map<Ref, ManifestFile>

    function State(): StoreState reads this { StoreState(blobs, manifests) }

    constructor (hash: (Algorithm, Bytes) -> string)
      ensures this.hash == hash && State() == StoreState(map[], map[])
    {
      this.hash := hash;
      blobs := map[];
      manifests := map[];
    }

    method Stage(digest: Digest, bytes: Bytes, fails: bool) returns (r: Result<(), StoreError>)
      modifies this
      ensures r == if fails then Err(Custody) else Ok(())
      ensures State() == if fails then old(State()) else old(State()).Staged(digest.Key(), bytes)
    {
      if fails { return Err(Custody); }
      if digest.Key() !in blobs {
        blobs := blobs[digest.Key() := bytes];
      }
      return Ok(());
    }

    method Put(ref: Ref, m: Manifest, fails: bool) returns (r: Result<(), StoreError>)
      modifies this
      ensures r == if fails then Err(StoreError.State) else Ok(())
      ensures State() == if fails then old(State()) else old(State()).Put(ref, m)
    {
      if fails { return Err(StoreError.State); }
      manifests := manifests[ref := Readable(m)];
      return Ok(());
    }

    method Resolve(ref: Ref) returns (r: Result<Manifest, StoreError>)
      ensures r == if ref !in manifests then Err(Unavailable)
                   else match manifests[ref]
                     case Readable(m) => Ok(m)
                     case Corrupt => Err(StoreError.State)
                     case Unsafe => Err(Custody)
    {
      if ref !in manifests { return Err(Unavailable); }
      match manifests[ref]
      case Readable(m) => return Ok(m);
      case Corrupt => return Err(StoreError.State);
      case Unsafe => return Err(Custody);
    }

    /** Only bytes whose recomputed hash is the recorded digest are ever handed out. */
    method OpenComponent(c: Component, unsafe: bool) returns (r: Result<Bytes, StoreError>)
      ensures r.Ok? ==> c.digest.Key() in blobs && r.value == blobs[c.digest.Key()]
      ensures r.Ok? ==> hash(c.digest.algorithm, r.value) == Lower(c.digest.hex)
      ensures r.Ok? <==>
        c.digest.Key() in blobs && !unsafe && hash(c.digest.algorithm, blobs[c.digest.Key()]) == Lower(c.digest.hex)
      ensures r == Err(Integrity) <==>
        c.digest.Key() in blobs && !unsafe && hash(c.digest.algorithm, blobs[c.digest.Key()]) != Lower(c.digest.hex)
    {
      if c.digest.Key() !in blobs { return Err(Unavailable); }
      if unsafe { return Err(Custody); }
      var bytes := blobs[c.digest.Key()];
      if hash(c.digest.algorithm, bytes) != Lower(c.digest.hex) { return Err(Integrity); }
      return Ok(bytes);
    }

    /** The directory scan: unreadable neighbours are skipped. */
    method ReferencedExcluding(ref: Ref) returns (keys: set<Digest>)
      ensures forall k :: k in keys <==> State().ReferencedElsewhere(ref, k)
    {
      keys := {};
      var todo := manifests.Keys;
      while todo != {}
        invariant todo <= manifests.Keys
        invariant forall k :: k in keys <==> exists r :: r !in todo && r != ref && State().NamesAt(r, k)
      {
        var r :| r in todo;
        ghost var before := keys;
        if r != ref && manifests[r].Readable? {
          var m := manifests[r].manifest;
          for i := 0 to |m.components|
            invariant keys == before + set j | 0 <= j < i :: m.components[j].digest.Key()
          {
            keys := keys + {m.components[i].digest.Key()};
          }
          forall k ensures k in keys <==> k in before || State().NamesAt(r, k) {}
        }
        todo := todo - {r};
      }
    }

    /** Unlinks the blobs that only `ref` names; the reference of each one that stays is a residual. */
    method DiscardBlobs(ref: Ref, m: Manifest, f: DiscardFaults) returns (residuals: seq<string>)
      requires ref in manifests && manifests[ref] == Readable(m)
      modifies this`blobs
      ensures residuals == ResidualIds(old(State()), ref, f, 2)
      ensures blobs == map k | k in old(blobs) && !Unlinked(old(State()), ref, f, k) :: old(blobs)[k]
    {
      ghost var s := State();
      residuals := [];
      var shared := ReferencedExcluding(ref);
      for i := 0 to |m.components|
        invariant residuals == ResidualIds(s, ref, f, i)
        invariant forall k :: k in blobs <==>
          k in s.blobs && forall j: nat :: j < i && Unlinks(s, ref, f, j) ==> m.components[j].digest.Key() != k
        invariant forall k :: k in blobs ==> blobs[k] == s.blobs[k]
      {
        var key := m.components[i].digest.Key();
        if key !in shared {
          if i in f.blobs {
            residuals := residuals + [m.components[i].opaqueRef];
          } else {
            blobs := map k | k in blobs && k != key :: blobs[k];
          }
        }
      }
    }

    method Discard(ref: Ref, f: DiscardFaults) returns (r: Result<DiscardOutcome, StoreError>)
      modifies this
      ensures State() == Discarded(old(State()), ref, f)
      ensures r == DiscardResult(old(State()), ref, f)
    {
      var resolved := Resolve(ref);
      if resolved == Err(Unavailable) { return Ok(DiscardOutcome([])); }
      if resolved == Err(Custody) { return Err(Custody); }
      var residuals := [];
      if resolved.Ok? {
        residuals := DiscardBlobs(ref, resolved.value, f);
      }
      ghost var fromBlobs := residuals;
      assert fromBlobs + [] == fromBlobs;
      if f.manifest {
        residuals := residuals + [ref];
      } else {
        manifests := map x | x in manifests && x != ref :: manifests[x];
      }
      return Ok(DiscardOutcome(residuals));
    }
  }

  // ------------------------------------------------------------------------
  // What `discard` promises
  // ------------------------------------------------------------------------

  /** Whatever fails, a blob another readable manifest names survives with its bytes. */
  lemma DiscardKeepsSharedBlobs(s: StoreState, ref: Ref, f: DiscardFaults, other: Ref, key: Digest)
    requires other != ref && s.NamesAt(other, key) && key in s.blobs
    ensures key in Discarded(s, ref, f).blobs && Discarded(s, ref, f).blobs[key] == s.blobs[key]
    ensures Discarded(s, ref, f).NamesAt(other, key)
  {
    assert s.ReferencedElsewhere(ref, key);
  }

  /** Without faults exactly the blobs only `ref` named disappear, and its manifest with them. */
  lemma DiscardRemovesExactlyOwnBlobs(s: StoreState, ref: Ref, key: Digest)
    requires s.Resolves(ref)
    ensures key in Discarded(s, ref, NO_FAULTS).blobs
       <==> key in s.blobs && !(s.NamesAt(ref, key) && !s.ReferencedElsewhere(ref, key))
    ensures Discarded(s, ref, NO_FAULTS).manifests.Keys == s.manifests.Keys - {ref}
  {
    var m := s.manifests[ref].manifest;
    if s.NamesAt(ref, key) {
      var c :| c in m.components && c.digest.Key() == key;
      var i :| 0 <= i < 2 && m.components[i] == c;
      assert !s.ReferencedElsewhere(ref, key) ==> Unlinks(s, ref, NO_FAULTS, i);
    }
  }

  lemma DiscardPreservesNoOrphans(s: StoreState, ref: Ref)
    requires s.NoOrphans()
    ensures Discarded(s, ref, NO_FAULTS).NoOrphans()
  {
    var t := Discarded(s, ref, NO_FAULTS);
    forall key | key in t.blobs ensures exists r :: t.NamesAt(r, key) {
      var r :| s.NamesAt(r, key);
      if s.Resolves(ref) {
        DiscardRemovesExactlyOwnBlobs(s, ref, key);
        var r' :| s.NamesAt(r', key) && (r' != ref || !s.NamesAt(ref, key));
        assert t.NamesAt(r', key);
      } else {
        assert t.NamesAt(r, key);
      }
    }
  }

  lemma KeptManifestKeepsNames(s: StoreState, ref: Ref, f: DiscardFaults)
    requires s.NoOrphans() && s.Resolves(ref) && f.manifest
    ensures Discarded(s, ref, f).NoOrphans()
  {
    var t := Discarded(s, ref, f);
    forall key | key in t.blobs ensures exists r :: t.NamesAt(r, key) {
      var r :| s.NamesAt(r, key);
      assert t.NamesAt(r, key);
    }
  }

  lemma FailedUnlinkOrphans(s: StoreState, ref: Ref, f: DiscardFaults, i: nat)
    requires s.Resolves(ref) && !f.manifest && i < 2 && UnlinkFails(s, ref, f, i)
    requires s.manifests[ref].manifest.components[i].digest.Key() in Discarded(s, ref, f).blobs
    ensures !Discarded(s, ref, f).NoOrphans()
  {
    var t, key := Discarded(s, ref, f), s.manifests[ref].manifest.components[i].digest.Key();
    forall r ensures !t.NamesAt(r, key) {
      assert t.NamesAt(r, key) ==> s.NamesAt(r, key) && r != ref;
    }
  }

  lemma OwnBlobsGoneKeepsNames(s: StoreState, ref: Ref, f: DiscardFaults)
    requires s.NoOrphans() && s.Resolves(ref) && !f.manifest
    requires forall i: nat :: i < 2 && UnlinkFails(s, ref, f, i) ==>
      s.manifests[ref].manifest.components[i].digest.Key() !in Discarded(s, ref, f).blobs
    ensures Discarded(s, ref, f).NoOrphans()
  {
    var t := Discarded(s, ref, f);
    forall key | key in t.blobs ensures exists r :: t.NamesAt(r, key) {
      var r :| s.NamesAt(r, key);
      if r == ref {
        assert s.ReferencedElsewhere(ref, key);
        r :| r != ref && s.NamesAt(r, key);
      }
      assert t.NamesAt(r, key);
    }
  }

  /** With faults, an orphan appears exactly when a blob outlives the manifest that alone named it. */
  lemma OrphansExactlyFromFailedUnlinks(s: StoreState, ref: Ref, f: DiscardFaults)
    requires s.NoOrphans() && s.Resolves(ref)
    ensures Discarded(s, ref, f).NoOrphans() <==>
      f.manifest || forall i: nat :: i < 2 && UnlinkFails(s, ref, f, i) ==>
        s.manifests[ref].manifest.components[i].digest.Key() !in Discarded(s, ref, f).blobs
  {
    var components, left := s.manifests[ref].manifest.components, Discarded(s, ref, f).blobs;
    if f.manifest {
      KeptManifestKeepsNames(s, ref, f);
    } else if i: nat :| i < 2 && UnlinkFails(s, ref, f, i) && components[i].digest.Key() in left {
      FailedUnlinkOrphans(s, ref, f, i);
    } else {
      OwnBlobsGoneKeepsNames(s, ref, f);
    }
  }

  /** Once `ref` resolves, a residual is reported exactly when an attempted unlink failed. */
  lemma ResidualExactlyOnFailure(s: StoreState, ref: Ref, f: DiscardFaults)
    requires s.Resolves(ref)
    ensures DiscardResult(s, ref, f).Ok?
    ensures DiscardResult(s, ref, f).value.residuals != []
       <==> f.manifest || exists i: nat :: i < 2 && UnlinkFails(s, ref, f, i)
  {
    assert ResidualIds(s, ref, f, 2) == ResidualIds(s, ref, f, 1)
      + (if UnlinkFails(s, ref, f, 1) then [s.manifests[ref].manifest.components[1].opaqueRef] else []);
    assert ResidualIds(s, ref, f, 1) == ResidualIds(s, ref, f, 0)
      + (if UnlinkFails(s, ref, f, 0) then [s.manifests[ref].manifest.components[0].opaqueRef] else []);
    if i: nat :| i < 2 && UnlinkFails(s, ref, f, i) {
      assert i == 0 || i == 1;
    }
  }

  /** Discarding twice reports success and changes nothing more. */
  lemma DiscardIsIdempotent(s: StoreState, ref: Ref, f: DiscardFaults)
    requires !f.manifest && DiscardResult(s, ref, f).Ok?
    ensures Discarded(Discarded(s, ref, f), ref, NO_FAULTS) == Discarded(s, ref, f)
    ensures DiscardResult(Discarded(s, ref, f), ref, NO_FAULTS) == Ok(DiscardOutcome([]))
  {
  }

  ghost predicate Silent(r: Result<DiscardOutcome, StoreError>) {
    r.Ok? && r.value.residuals == []
  }

  /** A discard that reports no residual did all of its work. */
  lemma SilentDiscardIsComplete(s: StoreState, ref: Ref, f: DiscardFaults)
    requires Silent(DiscardResult(s, ref, f))
    ensures Discarded(s, ref, f) == Discarded(s, ref, NO_FAULTS)
    ensures ref !in Discarded(s, ref, f).manifests
  {
    if s.Resolves(ref) {
      var components := s.manifests[ref].manifest.components;
      ResidualExactlyOnFailure(s, ref, f);
      forall i: nat | i < 2 ensures Unlinks(s, ref, f, i) <==> Unlinks(s, ref, NO_FAULTS, i) {
        assert !UnlinkFails(s, ref, f, i);
      }
      forall k ensures Unlinked(s, ref, f, k) <==> Unlinked(s, ref, NO_FAULTS, k) {
        if i: nat :| i < 2 && Unlinks(s, ref, f, i) && components[i].digest.Key() == k {
          assert Unlinks(s, ref, NO_FAULTS, i);
        }
        if i: nat :| i < 2 && Unlinks(s, ref, NO_FAULTS, i) && components[i].digest.Key() == k {
          assert Unlinks(s, ref, f, i);
        }
      }
      assert Discarded(s, ref, f).blobs == Discarded(s, ref, NO_FAULTS).blobs;
    }
  }

  lemma FaultlessDiscardIsSilent(s: StoreState, ref: Ref)
    requires ref in s.manifests ==> !s.manifests[ref].Unsafe?
    ensures Silent(DiscardResult(s, ref, NO_FAULTS))
  {
    if s.Resolves(ref) { ResidualExactlyOnFailure(s, ref, NO_FAULTS); }
  }
}
