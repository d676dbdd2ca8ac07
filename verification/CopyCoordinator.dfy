/**
 One durable capture, anonymize, deliver operation over the staging store.
 Every external call may fail: `Faults` says which ones do.
 */
module CopyCoordinator {
  import opened Wrappers
  import opened StagedStore
  import opened DurableOperations

  /** `capture` answers for `source`, the dump is what the source database yields. */
  datatype CaptureSource = CaptureSource(container: string, dump: Bytes, filestore: Component)

  datatype RawDataGrant = RawDataGrant(operationId: string, environmentId: string, expiresAt: int)

  datatype Request = Request(
    source: CaptureSource, hasRules: bool, operationId: string,
    raw: bool, retain: bool, grant: Option<RawDataGrant>, environmentId: string, now: int)

  datatype Faults = Faults(
    dump: bool, capturePut: bool, captureStage: bool, captureDiscard: DiscardFaults, evidence: bool,
    maskOpen: bool, maskRun: bool, maskStage: bool, shadowRef: bool, reap: DiscardFaults,
    readyUnsafe: bool, restoreUnsafe: bool, provision: bool, open: bool, stream: Option<nat>,
    successDiscard: DiscardFaults, scopeRejectsRef: bool, compensation: DiscardFaults)

  datatype CopyError =
    | CaptureFailed | EvidenceRejected | RawDeliveryRefused | MaskFailed | PersistenceFailed
    | CaptureIntegrity | CaptureNotReady | AnonymizationInconsistent | RestoreFailed
    | StoreFailed(store: StoreError) | LifecycleRejected

  datatype Checkpoint =
    | Captured | RawReapResidual | Anonymized | RawException | IntegrityVerified | DiscardOnSuccessResidual

  datatype CopyResult = CopyResult(checkpoints: seq<Checkpoint>, state: LifecycleState)

  /** The effect of the injected `manifest_persistence` on the store, and whether it raised. */
  datatype Persisted = Persisted(state: StoreState, raised: bool)

  type ManifestPersistence = (StoreState, Ref, Manifest) -> Persisted

  /** Persistence wired to the store's own `put`, which may fail without effect. */
  ghost predicate PersistsByPut(p: ManifestPersistence) {
    forall s, ref, m :: p(s, ref, m).state == if p(s, ref, m).raised then s else s.Put(ref, m)
  }

  /** Hex digests are lower case; distinct contents have distinct digests. */
  ghost predicate IsDigestFunction(hash: (Algorithm, Bytes) -> string) {
    && (forall a, b :: Lower(hash(a, b)) == hash(a, b))
    && (forall a, b, c {:trigger hash(a, b), hash(a, c)} :: hash(a, b) == hash(a, c) ==> b == c)
  }

  function DatabaseComponent(m: Manifest): (c: Component)
    ensures c in m.components && c.kind == Database
  {
    if m.components[0].kind == Database then m.components[0] else m.components[1]
  }

  function FilestoreComponent(m: Manifest): (c: Component)
    ensures c in m.components && c.kind == Filestore
  {
    if m.components[0].kind == Database then m.components[1] else m.components[0]
  }

  function RefOf(source: CaptureSource): Ref { "restore-set-" + source.container }

  function ShadowOf(ref: Ref): Ref { ref + "-preanonymize-raw" }

  /** The raw manifest of a capture. */
  function RawManifest(hash: (Algorithm, Bytes) -> string, source: CaptureSource): Manifest
    requires source.filestore.kind == Filestore
  {
    ManifestData(RefOf(source), "lineage-" + source.container,
      [Component(Database, "database-" + source.container, "pg_dump-custom-v1",
                 Digest(Sha256, hash(Sha256, source.dump))),
       source.filestore])
  }

  /** `m` with its database component replaced. */
  function WithDatabase(m: Manifest, c: Component): (r: Manifest)
    requires c.kind == Database
    ensures DatabaseComponent(r) == c && FilestoreComponent(r) == FilestoreComponent(m)
  {
    m.(components := if m.components[0].kind == Database
                     then [c, m.components[1]] else [m.components[0], c])
  }

  ghost function AfterCapture(s: StoreState, hash: (Algorithm, Bytes) -> string, source: CaptureSource): StoreState
    requires source.filestore.kind == Filestore
  {
    var m := RawManifest(hash, source);
    s.Put(RefOf(source), m).Staged(DatabaseComponent(m).digest.Key(), source.dump)
  }

  /**
   Persisting an anonymized manifest: when masking changed the database digest
   the raw manifest is parked under the shadow reference, `ref` is superseded,
   and the shadow is discarded whether or not superseding raised.
   */
  ghost function AfterAnonymization(
    p: ManifestPersistence, s: StoreState, ref: Ref, raw: Manifest, masked: Manifest, reap: DiscardFaults): Persisted
  {
    if DatabaseComponent(masked).digest == DatabaseComponent(raw).digest then p(s, ref, masked)
    else
      var shadowed := p(s, ShadowOf(ref), raw);
      if shadowed.raised then shadowed
      else
        var superseded := p(shadowed.state, ref, masked);
        Persisted(Discarded(superseded.state, ShadowOf(ref), reap), superseded.raised)
  }

  /** The outcome of the shadow discard inside `AfterAnonymization`. */
  ghost function ReapResult(
    p: ManifestPersistence, s: StoreState, ref: Ref, raw: Manifest, masked: Manifest, reap: DiscardFaults)
    : Result<DiscardOutcome, StoreError>
  {
    DiscardResult(p(p(s, ShadowOf(ref), raw).state, ref, masked).state, ShadowOf(ref), reap)
  }

  ghost function ReapCheckpoints(
    p: ManifestPersistence, s: StoreState, ref: Ref, raw: Manifest, masked: Manifest, reap: DiscardFaults)
    : seq<Checkpoint>
  {
    if DatabaseComponent(masked).digest != DatabaseComponent(raw).digest
       && !Silent(ReapResult(p, s, ref, raw, masked, reap))
    then [RawReapResidual] else []
  }

  // ------------------------------------------------------------------------
  // What a run promises
  // ------------------------------------------------------------------------

  function RawKey(hash: (Algorithm, Bytes) -> string, source: CaptureSource): Digest {
    Digest(Sha256, hash(Sha256, source.dump)).Key()
  }

  /** What a target may receive on the anonymizing path. */
  function Intended(req: Request, mask: Bytes -> Bytes): Bytes {
    if req.hasRules then mask(req.source.dump) else req.source.dump
  }

  predicate GrantValid(req: Request) {
    && req.grant.Some?
    && req.grant.value.operationId == req.operationId
    && req.grant.value.environmentId == req.environmentId
    && req.grant.value.expiresAt > req.now
  }

  /** Nothing in the store names or holds the raw dump yet. */
  ghost predicate RawAbsent(s: StoreState, ref: Ref, key: Digest) {
    && key !in s.blobs && ref !in s.manifests && ShadowOf(ref) !in s.manifests
    && forall r :: !s.NamesAt(r, key)
  }

  /** Only `ref` names the raw blob, and if the blob is there then `ref` does name it. */
  ghost predicate OnlyRefNames(s: StoreState, ref: Ref, key: Digest) {
    && (forall r :: r != ref ==> !s.NamesAt(r, key))
    && (key in s.blobs ==> s.NamesAt(ref, key))
  }

  /** No call outside the discards fails. */
  predicate Faultless(f: Faults) {
    !(f.dump || f.capturePut || f.captureStage || f.evidence || f.maskOpen || f.maskRun || f.maskStage
      || f.shadowRef || f.readyUnsafe || f.restoreUnsafe || f.provision || f.open || f.stream.Some?)
  }

  /** Every staged blob still hashes to the digest it is filed under. */
  ghost predicate Uncorrupted(hash: (Algorithm, Bytes) -> string, s: StoreState) {
    forall k :: k in s.blobs ==> hash(k.algorithm, s.blobs[k]) == k.hex
  }

  ghost predicate NeverRaises(p: ManifestPersistence) {
    forall s, ref, m :: !p(s, ref, m).raised
  }

  ghost predicate Unlinking(f: Faults) {
    f.captureDiscard == f.reap == f.successDiscard == f.compensation == NO_FAULTS
  }

  /** Manifests under other references stay, and so do the blobs they name. */
  ghost predicate Protects(s: StoreState, t: StoreState, ref: Ref) {
    && (forall r :: r != ref && r != ShadowOf(ref) ==>
          && (r in s.manifests <==> r in t.manifests)
          && (r in s.manifests ==> s.manifests[r] == t.manifests[r]))
    && (forall r, key :: r != ref && r != ShadowOf(ref) && s.NamesAt(r, key) && key in s.blobs ==>
          key in t.blobs && t.blobs[key] == s.blobs[key])
  }

  // ------------------------------------------------------------------------
  // What each stage does to the raw blob
  // ------------------------------------------------------------------------

  lemma DiscardClearsRaw(s: StoreState, ref: Ref, key: Digest)
    requires OnlyRefNames(s, ref, key)
    ensures key !in Discarded(s, ref, NO_FAULTS).blobs
  {
    if s.Resolves(ref) {
      DiscardRemovesExactlyOwnBlobs(s, ref, key);
      assert !s.ReferencedElsewhere(ref, key);
    }
  }

  ghost predicate FreshlyCaptured(t: StoreState, hash: (Algorithm, Bytes) -> string, source: CaptureSource)
    requires source.filestore.kind == Filestore
  {
    var ref, key := RefOf(source), RawKey(hash, source);
    && ref in t.manifests && t.manifests[ref] == Readable(RawManifest(hash, source))
    && ShadowOf(ref) !in t.manifests
    && OnlyRefNames(t, ref, key) && key in t.blobs && t.blobs[key] == source.dump
  }

  lemma CaptureIsolatesRaw(s: StoreState, hash: (Algorithm, Bytes) -> string, source: CaptureSource, f: DiscardFaults)
    requires RawAbsent(s, RefOf(source), RawKey(hash, source)) && source.filestore.kind == Filestore
    ensures FreshlyCaptured(AfterCapture(s, hash, source), hash, source)
    ensures RawKey(hash, source) !in Discarded(s.Put(RefOf(source), RawManifest(hash, source)), RefOf(source), f).blobs
  {
    var m, ref, key := RawManifest(hash, source), RefOf(source), RawKey(hash, source);
    var t := AfterCapture(s, hash, source);
    assert DatabaseComponent(m).digest.Key() == key;
    assert t.NamesAt(ref, key);
    forall r | r != ref ensures !t.NamesAt(r, key) {
      assert t.NamesAt(r, key) ==> s.NamesAt(r, key);
    }
    assert |ShadowOf(ref)| > |ref|;
  }

  lemma StagingKeepsIsolation(s: StoreState, ref: Ref, key: Digest, k: Digest, bytes: Bytes)
    requires OnlyRefNames(s, ref, key) && key in s.blobs
    ensures OnlyRefNames(s.Staged(k, bytes), ref, key) && key in s.Staged(k, bytes).blobs
    ensures s.Staged(k, bytes).manifests == s.manifests
  {
    var t := s.Staged(k, bytes);
    forall r ensures t.NamesAt(r, key) <==> s.NamesAt(r, key) {}
  }

  lemma NamesAfterPut(s: StoreState, ref: Ref, m: Manifest, r: Ref, key: Digest)
    ensures s.Put(ref, m).NamesAt(r, key) <==> if r == ref then m.Names(key) else s.NamesAt(r, key)
  {
  }

  lemma NamesAfterDiscard(s: StoreState, ref: Ref, f: DiscardFaults, r: Ref, key: Digest)
    requires r != ref
    ensures Discarded(s, ref, f).NamesAt(r, key) <==> s.NamesAt(r, key)
  {
  }

  lemma ReplacedDatabaseNames(raw: Manifest, c: Component, key: Digest)
    requires c.kind == Database && c.digest.Key() != key
    ensures WithDatabase(raw, c).Names(key) <==> FilestoreComponent(raw).digest.Key() == key
  {
    var m := WithDatabase(raw, c);
    assert m.components[0] in m.components && m.components[1] in m.components;
    assert FilestoreComponent(m) in m.components;
  }

  /**
   Superseding a changed manifest reaps the raw blob through the shadow
   reference: what is left of it is exactly what the masked manifest still names.
   */
  lemma AnonymizationReapsRaw(
    p: ManifestPersistence, s: StoreState, ref: Ref, raw: Manifest, c: Component, reap: DiscardFaults)
    requires PersistsByPut(p) && c.kind == Database
    requires s.manifests.Keys >= {ref} && s.manifests[ref] == Readable(raw) && ShadowOf(ref) !in s.manifests
    requires var key := DatabaseComponent(raw).digest.Key();
      OnlyRefNames(s, ref, key) && key in s.blobs && c.digest.Key() != key
    requires Silent(ReapResult(p, s, ref, raw, WithDatabase(raw, c), reap))
    ensures var key := DatabaseComponent(raw).digest.Key();
      var t := AfterAnonymization(p, s, ref, raw, WithDatabase(raw, c), reap);
      && OnlyRefNames(t.state, ref, key)
      && ShadowOf(ref) !in t.state.manifests
      && ref in t.state.manifests
      && (!t.raised ==>
            && t.state.manifests[ref] == Readable(WithDatabase(raw, c))
            && (key in t.state.blobs <==> FilestoreComponent(raw).digest.Key() == key))
  {
    var key, shadow, masked := DatabaseComponent(raw).digest.Key(), ShadowOf(ref), WithDatabase(raw, c);
    assert |shadow| > |ref|;
    if !p(s, shadow, raw).raised {
      var s1 := s.Put(shadow, raw);
      assert p(s, shadow, raw).state == s1;
      var u := p(s1, ref, masked);
      SilentDiscardIsComplete(u.state, shadow, reap);
      var t := Discarded(u.state, shadow, NO_FAULTS);
      ReplacedDatabaseNames(raw, c, key);
      forall r ensures t.NamesAt(r, key) ==> r == ref {
        NamesAfterPut(s, shadow, raw, r, key);
        NamesAfterPut(s1, ref, masked, r, key);
        if r != shadow { NamesAfterDiscard(u.state, shadow, NO_FAULTS, r, key); }
      }
      NamesAfterPut(s, shadow, raw, ref, key);
      NamesAfterPut(s1, ref, masked, ref, key);
      NamesAfterPut(s, shadow, raw, shadow, key);
      NamesAfterPut(s1, ref, masked, shadow, key);
      NamesAfterDiscard(u.state, shadow, NO_FAULTS, ref, key);
      assert raw.Names(key);
      DiscardRemovesExactlyOwnBlobs(u.state, shadow, key);
      forall r ensures r != shadow && u.state.NamesAt(r, key) ==> r == ref {
        NamesAfterPut(s, shadow, raw, r, key);
        NamesAfterPut(s1, ref, masked, r, key);
      }
      assert u.state.ReferencedElsewhere(shadow, key) <==> u.state.NamesAt(ref, key);
    }
  }

  lemma StepsProtect(s: StoreState, ref: Ref, at: Ref, m: Manifest, k: Digest, bytes: Bytes, f: DiscardFaults)
    requires at == ref || at == ShadowOf(ref)
    ensures Protects(s, s.Put(at, m), ref)
    ensures Protects(s, s.Staged(k, bytes), ref)
    ensures Protects(s, Discarded(s, at, f), ref)
  {
    forall r, key | r != ref && r != ShadowOf(ref) && s.NamesAt(r, key) && key in s.blobs
      ensures key in Discarded(s, at, f).blobs && Discarded(s, at, f).blobs[key] == s.blobs[key]
    {
      DiscardKeepsSharedBlobs(s, at, f, r, key);
    }
  }

  lemma ProtectionComposes(s: StoreState, t: StoreState, u: StoreState, ref: Ref)
    requires Protects(s, t, ref) && Protects(t, u, ref)
    ensures Protects(s, u, ref)
  {
    forall r, key | r != ref && r != ShadowOf(ref) && s.NamesAt(r, key) && key in s.blobs
      ensures key in u.blobs && u.blobs[key] == s.blobs[key]
    {
      assert t.NamesAt(r, key);
    }
  }

  lemma AnonymizationProtects(
    p: ManifestPersistence, s: StoreState, ref: Ref, raw: Manifest, masked: Manifest, reap: DiscardFaults)
    requires PersistsByPut(p)
    ensures Protects(s, AfterAnonymization(p, s, ref, raw, masked, reap).state, ref)
  {
    StepsProtect(s, ref, ref, masked, Digest(Sha256, ""), [], reap);
    StepsProtect(s, ref, ShadowOf(ref), raw, Digest(Sha256, ""), [], reap);
    var s1 := p(s, ShadowOf(ref), raw).state;
    StepsProtect(s1, ref, ref, masked, Digest(Sha256, ""), [], reap);
    var s2 := p(s1, ref, masked).state;
    StepsProtect(s2, ref, ShadowOf(ref), masked, Digest(Sha256, ""), [], reap);
    ProtectionComposes(s, s1, s2, ref);
    ProtectionComposes(s, s2, Discarded(s2, ShadowOf(ref), reap), ref);
  }

  /** The component the mask transform returns in state `s`, and the state it leaves. */
  ghost function MaskedComponent(
    mask: Bytes -> Bytes, hash: (Algorithm, Bytes) -> string, hasRules: bool, raw: Manifest, s: StoreState): Component
    requires hasRules ==> DatabaseComponent(raw).digest.Key() in s.blobs
  {
    var c := DatabaseComponent(raw);
    if hasRules then c.(digest := Digest(Sha256, hash(Sha256, mask(s.blobs[c.digest.Key()])))) else c
  }

  ghost function AfterMasking(
    mask: Bytes -> Bytes, hash: (Algorithm, Bytes) -> string, hasRules: bool, raw: Manifest, s: StoreState): StoreState
    requires hasRules ==> DatabaseComponent(raw).digest.Key() in s.blobs
  {
    var c := DatabaseComponent(raw);
    if hasRules then
      s.Staged(MaskedComponent(mask, hash, hasRules, raw, s).digest.Key(), mask(s.blobs[c.digest.Key()]))
    else s
  }

  /** The mask transform fails: a call of it does, or the raw blob is missing or not what its digest says. */
  ghost predicate MaskFails(
    hash: (Algorithm, Bytes) -> string, c: Component, hasRules: bool, f: Faults, s: StoreState)
  {
    hasRules && c.kind == Database
    && (f.maskOpen || f.maskRun || f.maskStage || c.digest.Key() !in s.blobs
        || hash(c.digest.algorithm, s.blobs[c.digest.Key()]) != Lower(c.digest.hex))
  }

  /** Masking and persisting: from `s` to `t` with answer `r`, each way of failing with the state it leaves. */
  ghost predicate AnonymizeStep(
    p: ManifestPersistence, mask: Bytes -> Bytes, hash: (Algorithm, Bytes) -> string, req: Request, raw: Manifest,
    f: Faults, s: StoreState, t: StoreState, r: Result<(Digest, seq<Checkpoint>), CopyError>)
  {
    if MaskFails(hash, DatabaseComponent(raw), req.hasRules, f, s) then r.Err? && t == s
    else
      var c := MaskedComponent(mask, hash, req.hasRules, raw, s);
      var u := AfterMasking(mask, hash, req.hasRules, raw, s);
      if f.shadowRef && c.digest != DatabaseComponent(raw).digest then r.Err? && t == u
      else
        var done := AfterAnonymization(p, u, RefOf(req.source), raw, WithDatabase(raw, c), f.reap);
        var residual := ReapCheckpoints(p, u, RefOf(req.source), raw, WithDatabase(raw, c), f.reap);
        t == done.state && (r.Err? <==> done.raised) && (r.Ok? ==> r.value == (c.digest, residual + [Anonymized]))
  }

  lemma AnonymizedDigest(
    p: ManifestPersistence, mask: Bytes -> Bytes, hash: (Algorithm, Bytes) -> string, req: Request, raw: Manifest,
    f: Faults, s: StoreState, t: StoreState, r: Result<(Digest, seq<Checkpoint>), CopyError>)
    requires AnonymizeStep(p, mask, hash, req, raw, f, s, t, r) && r.Ok?
    requires IsDigestFunction(hash) && req.source.filestore.kind == Filestore && raw == RawManifest(hash, req.source)
    ensures r.value.0 == Digest(Sha256, hash(Sha256, Intended(req, mask)))
  {
    if req.hasRules {
      var key := DatabaseComponent(raw).digest.Key();
      assert hash(Sha256, s.blobs[key]) == hash(Sha256, req.source.dump);
    }
  }

  lemma AnonymizeProtects(
    p: ManifestPersistence, mask: Bytes -> Bytes, hash: (Algorithm, Bytes) -> string, req: Request, raw: Manifest,
    f: Faults, s: StoreState, t: StoreState, r: Result<(Digest, seq<Checkpoint>), CopyError>)
    requires AnonymizeStep(p, mask, hash, req, raw, f, s, t, r) && PersistsByPut(p)
    ensures Protects(s, t, RefOf(req.source))
  {
    var ref, key := RefOf(req.source), DatabaseComponent(raw).digest.Key();
    if req.hasRules ==> key in s.blobs {
      var c := MaskedComponent(mask, hash, req.hasRules, raw, s);
      var u := AfterMasking(mask, hash, req.hasRules, raw, s);
      if req.hasRules {
        StepsProtect(s, ref, ref, raw, c.digest.Key(), mask(s.blobs[key]), NO_FAULTS);
      }
      AnonymizationProtects(p, u, ref, raw, WithDatabase(raw, c), f.reap);
      ProtectionComposes(s, u, AfterAnonymization(p, u, ref, raw, WithDatabase(raw, c), f.reap).state, ref);
    }
  }

  /** A shadow manifest is never left behind without the residual being recorded. */
  lemma ShadowNeverLeftSilently(
    p: ManifestPersistence, mask: Bytes -> Bytes, hash: (Algorithm, Bytes) -> string, req: Request, raw: Manifest,
    f: Faults, s: StoreState, t: StoreState, r: Result<(Digest, seq<Checkpoint>), CopyError>)
    requires AnonymizeStep(p, mask, hash, req, raw, f, s, t, r) && r.Ok? && PersistsByPut(p)
    requires ShadowOf(RefOf(req.source)) !in s.manifests
    ensures RawReapResidual in r.value.1 || ShadowOf(RefOf(req.source)) !in t.manifests
  {
    var ref, shadow := RefOf(req.source), ShadowOf(RefOf(req.source));
    assert |shadow| > |ref|;
    var c := MaskedComponent(mask, hash, req.hasRules, raw, s);
    var u := AfterMasking(mask, hash, req.hasRules, raw, s);
    var masked := WithDatabase(raw, c);
    assert RawReapResidual in ReapCheckpoints(p, u, ref, raw, masked, f.reap) ==> RawReapResidual in r.value.1;
    if DatabaseComponent(masked).digest != DatabaseComponent(raw).digest
       && Silent(ReapResult(p, u, ref, raw, masked, f.reap)) {
      SilentDiscardIsComplete(p(p(u, shadow, raw).state, ref, masked).state, shadow, f.reap);
    }
  }

  /** With a digest-changing mask the raw blob stays reachable through `ref` at most. */
  lemma AnonymizeContainsRaw(
    p: ManifestPersistence, mask: Bytes -> Bytes, hash: (Algorithm, Bytes) -> string, req: Request, raw: Manifest,
    f: Faults, s: StoreState, t: StoreState, r: Result<(Digest, seq<Checkpoint>), CopyError>)
    requires AnonymizeStep(p, mask, hash, req, raw, f, s, t, r) && PersistsByPut(p) && f.reap == NO_FAULTS
    requires IsDigestFunction(hash) && req.source.filestore.kind == Filestore && raw == RawManifest(hash, req.source)
    requires req.hasRules && mask(req.source.dump) != req.source.dump
    requires FreshlyCaptured(s, hash, req.source)
    ensures var ref, key := RefOf(req.source), RawKey(hash, req.source);
      && OnlyRefNames(t, ref, key)
      && (r.Ok? ==> (key in t.blobs <==> req.source.filestore.digest.Key() == key))
  {
    var ref, key := RefOf(req.source), RawKey(hash, req.source);
    var c := MaskedComponent(mask, hash, true, raw, s);
    var u := AfterMasking(mask, hash, true, raw, s);
    StagingKeepsIsolation(s, ref, key, c.digest.Key(), mask(req.source.dump));
    assert hash(Sha256, mask(req.source.dump)) != hash(Sha256, req.source.dump);
    assert c.digest.Key() == c.digest;
    assert |ShadowOf(ref)| > |ref|;
    FaultlessDiscardIsSilent(p(p(u, ShadowOf(ref), raw).state, ref, WithDatabase(raw, c)).state, ShadowOf(ref));
    AnonymizationReapsRaw(p, u, ref, raw, c, NO_FAULTS);
  }

  /** The database blob served for `ref` is present and hashes to its recorded digest. */
  ghost predicate Verified(hash: (Algorithm, Bytes) -> string, s: StoreState, ref: Ref)
    requires s.Resolves(ref)
  {
    var d := DatabaseComponent(s.manifests[ref].manifest).digest;
    d.Key() in s.blobs && hash(d.algorithm, s.blobs[d.Key()]) == Lower(d.hex)
  }

  /** What came in is a prefix of `bytes`, all of it when the stream did not break off. */
  ghost predicate Received(before: seq<Bytes>, after: seq<Bytes>, bytes: Bytes, whole: bool) {
    && |after| == |before| + 1 && before <= after
    && after[|before|] <= bytes && (whole ==> after[|before|] == bytes)
  }

  /** The verified bytes of the database component served for `ref` were streamed, or a prefix of them. */
  ghost predicate Streamed(
    hash: (Algorithm, Bytes) -> string, s: StoreState, ref: Ref, before: seq<Bytes>, after: seq<Bytes>, whole: bool)
  {
    && s.Resolves(ref) && Verified(hash, s, ref)
    && Received(before, after, s.blobs[DatabaseComponent(s.manifests[ref].manifest).digest.Key()], whole)
  }

  /** The fail-closed guard: on the anonymizing path the served digest must be the masked one. */
  ghost predicate Guarded(s: StoreState, ref: Ref, masked: Option<Digest>) {
    s.Resolves(ref)
    && (masked.Some? ==> DatabaseComponent(s.manifests[ref].manifest).digest == masked.value)
  }

  ghost predicate DeliverableAt(
    hash: (Algorithm, Bytes) -> string, s: StoreState, ref: Ref, masked: Option<Digest>)
  {
    Guarded(s, ref, masked) && Verified(hash, s, ref)
  }

  /** The masked digest when there is one, and the checkpoints reached. */
  type Preparation = Result<(Option<Digest>, seq<Checkpoint>), CopyError>

  /** What anonymization answered, when it was reached. */
  function MaskAnswer(r: Preparation): Result<(Digest, seq<Checkpoint>), CopyError> {
    if r.Err? then Err(r.error)
    else if r.value.0.None? then Err(RawDeliveryRefused)
    else Ok((r.value.0.value, r.value.1))
  }

  /** Between capture and delivery: the raw-delivery gate, or anonymization. */
  ghost predicate Prepared(
    p: ManifestPersistence, mask: Bytes -> Bytes, hash: (Algorithm, Bytes) -> string, req: Request, raw: Manifest,
    f: Faults, s: StoreState, t: StoreState, r: Preparation)
  {
    if req.raw then
      t == s && (if GrantValid(req) then r == Ok((None, [RawException])) else r == Err(RawDeliveryRefused))
    else
      && (r.Ok? ==> r.value.0.Some?)
      && AnonymizeStep(p, mask, hash, req, raw, f, s, t,
           MaskAnswer(r))
  }

  /** The conditions under which a run is to leave no trace of the raw dump. */
  ghost predicate ReapsRaw(
    p: ManifestPersistence, mask: Bytes -> Bytes, hash: (Algorithm, Bytes) -> string,
    req: Request, f: Faults, s: StoreState)
  {
    && !req.raw && req.hasRules && mask(req.source.dump) != req.source.dump
    && IsDigestFunction(hash) && PersistsByPut(p) && Unlinking(f)
    && RawAbsent(s, RefOf(req.source), RawKey(hash, req.source))
  }

  /** What a target may receive: the mask's output, or the dump itself on the raw path. */
  function Payload(req: Request, mask: Bytes -> Bytes): Bytes {
    if req.raw then req.source.dump else Intended(req, mask)
  }

  /** Whether the run gets as far as a staged capture. */
  predicate Captures(req: Request, f: Faults) {
    req.source.filestore.kind == Filestore && !f.dump && !f.capturePut && !f.captureStage
  }

  /** The run got from `s` to `t`, where it raised before delivery or went on to deliver. */
  ghost predicate Attempted(
    p: ManifestPersistence, mask: Bytes -> Bytes, hash: (Algorithm, Bytes) -> string, req: Request, f: Faults,
    s: StoreState, t: StoreState, prep: Preparation, captured: bool)
  {
    && captured == Captures(req, f)
    && if !captured then
      && prep.Err?
      && (t != s ==>
            && req.source.filestore.kind == Filestore
            && var ref := RefOf(req.source);
            t == Discarded(s.Put(ref, RawManifest(hash, req.source)), ref, f.captureDiscard))
    else
      && req.source.filestore.kind == Filestore
      && var c := AfterCapture(s, hash, req.source);
      if f.evidence then prep.Err? && t == c
      else Prepared(p, mask, hash, req, RawManifest(hash, req.source), f, c, t, prep)
  }

  ghost function AfterSuccess(req: Request, f: Faults, t: StoreState): StoreState {
    if req.retain then t else Discarded(t, RefOf(req.source), f.successDiscard)
  }

  ghost function SuccessCheckpoints(req: Request, f: Faults, t: StoreState): seq<Checkpoint> {
    if req.retain || Silent(DiscardResult(t, RefOf(req.source), f.successDiscard)) then []
    else [DiscardOnSuccessResidual]
  }

  /** What was streamed is the payload, whatever persistence did to the store. */
  lemma StreamsOnlyPayload(
    p: ManifestPersistence, mask: Bytes -> Bytes, hash: (Algorithm, Bytes) -> string, req: Request, f: Faults,
    s: StoreState, t: StoreState, prep: Preparation, before: seq<Bytes>, after: seq<Bytes>, whole: bool)
    requires Attempted(p, mask, hash, req, f, s, t, prep, true) && prep.Ok?
    requires Guarded(t, RefOf(req.source), prep.value.0)
    requires Streamed(hash, t, RefOf(req.source), before, after, whole)
    requires IsDigestFunction(hash)
    ensures Received(before, after, Payload(req, mask), whole)
    ensures req.raw ==> GrantValid(req)
  {
    var raw, c := RawManifest(hash, req.source), AfterCapture(s, hash, req.source);
    var bytes := t.blobs[DatabaseComponent(t.manifests[RefOf(req.source)].manifest).digest.Key()];
    if req.raw {
      assert t.manifests[RefOf(req.source)] == Readable(raw);
      assert hash(Sha256, bytes) == hash(Sha256, req.source.dump);
    } else {
      AnonymizedDigest(p, mask, hash, req, raw, f, c, t, MaskAnswer(prep));
      assert hash(Sha256, bytes) == hash(Sha256, Intended(req, mask));
    }
  }

  lemma AttemptProtects(
    p: ManifestPersistence, mask: Bytes -> Bytes, hash: (Algorithm, Bytes) -> string, req: Request, f: Faults,
    s: StoreState, t: StoreState, prep: Preparation, captured: bool)
    requires Attempted(p, mask, hash, req, f, s, t, prep, captured) && PersistsByPut(p)
    ensures Protects(s, t, RefOf(req.source))
  {
    if captured || t != s {
      var ref, raw := RefOf(req.source), RawManifest(hash, req.source);
      var key := DatabaseComponent(raw).digest.Key();
      var put, c := s.Put(ref, raw), AfterCapture(s, hash, req.source);
      StepsProtect(s, ref, ref, raw, key, req.source.dump, f.captureDiscard);
      StepsProtect(put, ref, ref, raw, key, req.source.dump, f.captureDiscard);
      if !captured {
        ProtectionComposes(s, put, t, ref);
      } else {
        ProtectionComposes(s, put, c, ref);
        if !req.raw && t != c {
          AnonymizeProtects(p, mask, hash, req, raw, f, c, t,
            MaskAnswer(prep));
        }
        ProtectionComposes(s, c, t, ref);
      }
    }
  }

  lemma PreparationContainsRaw(
    p: ManifestPersistence, mask: Bytes -> Bytes, hash: (Algorithm, Bytes) -> string, req: Request, f: Faults,
    c: StoreState, t: StoreState, prep: Preparation)
    requires req.source.filestore.kind == Filestore && FreshlyCaptured(c, hash, req.source)
    requires Prepared(p, mask, hash, req, RawManifest(hash, req.source), f, c, t, prep)
    requires !req.raw && req.hasRules && mask(req.source.dump) != req.source.dump
    requires IsDigestFunction(hash) && PersistsByPut(p) && f.reap == NO_FAULTS
    ensures OnlyRefNames(t, RefOf(req.source), RawKey(hash, req.source))
    ensures prep.Ok? ==>
      (RawKey(hash, req.source) in t.blobs <==> req.source.filestore.digest.Key() == RawKey(hash, req.source))
  {
    AnonymizeContainsRaw(p, mask, hash, req, RawManifest(hash, req.source), f, c, t, MaskAnswer(prep));
  }

  /** Where the raw blob can still be when delivery starts or the run raises. */
  lemma AttemptContainsRaw(
    p: ManifestPersistence, mask: Bytes -> Bytes, hash: (Algorithm, Bytes) -> string, req: Request, f: Faults,
    s: StoreState, t: StoreState, prep: Preparation, captured: bool)
    requires Attempted(p, mask, hash, req, f, s, t, prep, captured) && ReapsRaw(p, mask, hash, req, f, s)
    ensures RawContained(hash, req, t, prep.Ok?, captured)
  {
    if captured {
      CaptureIsolatesRaw(s, hash, req.source, f.captureDiscard);
      var c := AfterCapture(s, hash, req.source);
      if prep.Ok? || t != c {
        PreparationContainsRaw(p, mask, hash, req, f, c, t, prep);
      }
    } else if t != s {
      CaptureIsolatesRaw(s, hash, req.source, f.captureDiscard);
    }
  }

  ghost predicate RawContained(
    hash: (Algorithm, Bytes) -> string, req: Request, t: StoreState, ok: bool, captured: bool)
  {
    var ref, key := RefOf(req.source), RawKey(hash, req.source);
    && (!captured ==> key !in t.blobs)
    && (captured ==> OnlyRefNames(t, ref, key))
    && (ok ==> (key in t.blobs <==> req.source.filestore.digest.Key() == key))
  }

  /** Superseding keeps the masked blob staged and makes `ref` serve the masked manifest. */
  lemma SupersededServesMasked(
    p: ManifestPersistence, u: StoreState, ref: Ref, raw: Manifest, masked: Manifest, reap: DiscardFaults)
    requires PersistsByPut(p) && NeverRaises(p) && DatabaseComponent(masked).digest.Key() in u.blobs
    ensures var t, d := AfterAnonymization(p, u, ref, raw, masked, reap), DatabaseComponent(masked).digest.Key();
      && !t.raised && t.state.Resolves(ref) && t.state.manifests[ref].manifest == masked
      && d in t.state.blobs && t.state.blobs[d] == u.blobs[d]
  {
    var shadow, d := ShadowOf(ref), DatabaseComponent(masked).digest.Key();
    assert |shadow| > |ref|;
    if DatabaseComponent(masked).digest != DatabaseComponent(raw).digest {
      var v := p(p(u, shadow, raw).state, ref, masked).state;
      assert v == u.Put(shadow, raw).Put(ref, masked);
      assert v.NamesAt(ref, d);
      DiscardKeepsSharedBlobs(v, shadow, reap, ref, d);
    }
  }

  /** Without faults, preparation succeeds and what it leaves behind passes the delivery checks. */
  lemma FaultlessPreparation(
    p: ManifestPersistence, mask: Bytes -> Bytes, hash: (Algorithm, Bytes) -> string, req: Request, f: Faults,
    s: StoreState, t: StoreState, prep: Preparation)
    requires Attempted(p, mask, hash, req, f, s, t, prep, true) && Faultless(f)
    requires IsDigestFunction(hash) && PersistsByPut(p) && NeverRaises(p) && Uncorrupted(hash, s)
    requires req.raw ==> GrantValid(req)
    ensures prep.Ok? && DeliverableAt(hash, t, RefOf(req.source), prep.value.0)
  {
    var ref, raw, c := RefOf(req.source), RawManifest(hash, req.source), AfterCapture(s, hash, req.source);
    assert Uncorrupted(hash, c);
    if !req.raw {
      var masked := MaskedComponent(mask, hash, req.hasRules, raw, c);
      SupersededServesMasked(p, AfterMasking(mask, hash, req.hasRules, raw, c), ref, raw, WithDatabase(raw, masked),
        f.reap);
    }
  }

  /** A staged capture is discarded exactly when the run raised, or returned without retaining. */
  lemma AttemptKeepsRef(
    p: ManifestPersistence, mask: Bytes -> Bytes, hash: (Algorithm, Bytes) -> string, req: Request, f: Faults,
    s: StoreState, t: StoreState, prep: Preparation, captured: bool)
    requires Attempted(p, mask, hash, req, f, s, t, prep, captured) && PersistsByPut(p)
    requires f.captureDiscard == NO_FAULTS && RefOf(req.source) !in s.manifests
    ensures captured <==> RefOf(req.source) in t.manifests
    ensures captured ==> t.Resolves(RefOf(req.source))
  {
    if captured {
      var c := AfterCapture(s, hash, req.source);
      assert c.Resolves(RefOf(req.source));
      if !req.raw && t != c {
        AnonymizeKeepsRef(p, mask, hash, req, RawManifest(hash, req.source), f, c, t, MaskAnswer(prep));
      }
    }
  }

  lemma AnonymizeKeepsRef(
    p: ManifestPersistence, mask: Bytes -> Bytes, hash: (Algorithm, Bytes) -> string, req: Request, raw: Manifest,
    f: Faults, s: StoreState, t: StoreState, r: Result<(Digest, seq<Checkpoint>), CopyError>)
    requires AnonymizeStep(p, mask, hash, req, raw, f, s, t, r) && PersistsByPut(p)
    requires s.Resolves(RefOf(req.source))
    ensures t.Resolves(RefOf(req.source))
  {
    var ref, key := RefOf(req.source), DatabaseComponent(raw).digest.Key();
    if req.hasRules ==> key in s.blobs {
      var c := MaskedComponent(mask, hash, req.hasRules, raw, s);
      AnonymizationKeepsRef(p, AfterMasking(mask, hash, req.hasRules, raw, s), ref, raw, WithDatabase(raw, c), f.reap);
    }
  }

  lemma AnonymizationKeepsRef(
    p: ManifestPersistence, u: StoreState, ref: Ref, raw: Manifest, masked: Manifest, reap: DiscardFaults)
    requires PersistsByPut(p) && u.Resolves(ref)
    ensures AfterAnonymization(p, u, ref, raw, masked, reap).state.Resolves(ref)
  {
    assert |ShadowOf(ref)| > |ref|;
  }

  /** The shadow reference is gone, or the residual is on record. */
  lemma AttemptShadow(
    p: ManifestPersistence, mask: Bytes -> Bytes, hash: (Algorithm, Bytes) -> string, req: Request, f: Faults,
    s: StoreState, t: StoreState, prep: Preparation)
    requires Attempted(p, mask, hash, req, f, s, t, prep, true) && prep.Ok? && PersistsByPut(p)
    requires ShadowOf(RefOf(req.source)) !in s.manifests
    ensures RawReapResidual in prep.value.1 || ShadowOf(RefOf(req.source)) !in t.manifests
  {
    assert |ShadowOf(RefOf(req.source))| > |RefOf(req.source)|;
    if !req.raw {
      ShadowNeverLeftSilently(p, mask, hash, req, RawManifest(hash, req.source), f,
        AfterCapture(s, hash, req.source), t, MaskAnswer(prep));
    }
  }

  /** From the end of the attempt at `t` to the final state `u`: garbage collection or compensation. */
  ghost predicate Ended(
    req: Request, f: Faults, t: StoreState, prep: Preparation, captured: bool,
    r: Result<CopyResult, CopyError>, u: StoreState)
  {
    if r.Ok? then
      && captured && prep.Ok? && u == AfterSuccess(req, f, t)
      && r.value.checkpoints == [Captured] + prep.value.1 + [IntegrityVerified] + SuccessCheckpoints(req, f, t)
    else
      u == if captured && !f.scopeRejectsRef then Discarded(t, RefOf(req.source), f.compensation) else t
  }

  /** The raw blob is gone, except where a retained manifest names it as its filestore. */
  lemma RunReapsRaw(
    p: ManifestPersistence, mask: Bytes -> Bytes, hash: (Algorithm, Bytes) -> string, req: Request, f: Faults,
    s: StoreState, t: StoreState, prep: Preparation, captured: bool,
    r: Result<CopyResult, CopyError>, u: StoreState)
    requires Attempted(p, mask, hash, req, f, s, t, prep, captured) && Ended(req, f, t, prep, captured, r, u)
    requires ReapsRaw(p, mask, hash, req, f, s) && !f.scopeRejectsRef
    ensures RawKey(hash, req.source) !in u.blobs <==>
      !(r.Ok? && req.retain && req.source.filestore.digest.Key() == RawKey(hash, req.source))
  {
    AttemptContainsRaw(p, mask, hash, req, f, s, t, prep, captured);
    if captured {
      DiscardClearsRaw(t, RefOf(req.source), RawKey(hash, req.source));
    }
  }

  lemma RunProtects(
    p: ManifestPersistence, mask: Bytes -> Bytes, hash: (Algorithm, Bytes) -> string, req: Request, f: Faults,
    s: StoreState, t: StoreState, prep: Preparation, captured: bool,
    r: Result<CopyResult, CopyError>, u: StoreState)
    requires Attempted(p, mask, hash, req, f, s, t, prep, captured) && Ended(req, f, t, prep, captured, r, u)
    requires PersistsByPut(p)
    ensures Protects(s, u, RefOf(req.source))
  {
    var ref := RefOf(req.source);
    AttemptProtects(p, mask, hash, req, f, s, t, prep, captured);
    StepsProtect(t, ref, ref, ManifestWitness(), Digest(Sha256, ""), [], f.successDiscard);
    StepsProtect(t, ref, ref, ManifestWitness(), Digest(Sha256, ""), [], f.compensation);
    ProtectionComposes(s, t, u, ref);
  }

  ghost function ManifestWitness(): Manifest {
    var m: Manifest :| true; m
  }

  lemma RunKeepsRef(
    req: Request, f: Faults, t: StoreState, prep: Preparation, captured: bool,
    r: Result<CopyResult, CopyError>, u: StoreState)
    requires Ended(req, f, t, prep, captured, r, u) && Unlinking(f) && !f.scopeRejectsRef
    requires captured <==> RefOf(req.source) in t.manifests
    requires captured ==> t.Resolves(RefOf(req.source))
    ensures RefOf(req.source) in u.manifests <==> r.Ok? && req.retain
  {
  }

  lemma RunRecordsResiduals(
    p: ManifestPersistence, mask: Bytes -> Bytes, hash: (Algorithm, Bytes) -> string, req: Request, f: Faults,
    s: StoreState, t: StoreState, prep: Preparation, captured: bool,
    r: Result<CopyResult, CopyError>, u: StoreState)
    requires Attempted(p, mask, hash, req, f, s, t, prep, captured) && Ended(req, f, t, prep, captured, r, u)
    requires r.Ok?
    ensures !req.retain ==> DiscardOnSuccessResidual in r.value.checkpoints || RefOf(req.source) !in u.manifests
    ensures PersistsByPut(p) && ShadowOf(RefOf(req.source)) !in s.manifests ==>
      RawReapResidual in r.value.checkpoints || ShadowOf(RefOf(req.source)) !in u.manifests
  {
    if !req.retain && Silent(DiscardResult(t, RefOf(req.source), f.successDiscard)) {
      SilentDiscardIsComplete(t, RefOf(req.source), f.successDiscard);
    }
    if PersistsByPut(p) && ShadowOf(RefOf(req.source)) !in s.manifests {
      AttemptShadow(p, mask, hash, req, f, s, t, prep);
    }
  }

  // ------------------------------------------------------------------------
  // Orphans: the only blob a run can strand is the masked one
  // ------------------------------------------------------------------------

  function MaskedKey(mask: Bytes -> Bytes, hash: (Algorithm, Bytes) -> string, req: Request): Digest {
    Digest(Sha256, hash(Sha256, mask(req.source.dump))).Key()
  }

  /** Every blob but perhaps `key` is named by some manifest. */
  ghost predicate OrphansAtMost(s: StoreState, key: Digest) {
    forall k :: k in s.blobs && k != key ==> exists r :: s.NamesAt(r, k)
  }

  lemma FreshPutKeepsNames(s: StoreState, ref: Ref, m: Manifest, key: Digest)
    requires ref !in s.manifests && OrphansAtMost(s, key)
    ensures OrphansAtMost(s.Put(ref, m), key)
  {
    var t := s.Put(ref, m);
    forall k | k in t.blobs && k != key ensures exists r :: t.NamesAt(r, k) {
      var r :| s.NamesAt(r, k);
      assert t.NamesAt(r, k);
    }
  }

  lemma DiscardKeepsNames(s: StoreState, ref: Ref, key: Digest)
    requires OrphansAtMost(s, key)
    ensures OrphansAtMost(Discarded(s, ref, NO_FAULTS), key)
  {
    var t := Discarded(s, ref, NO_FAULTS);
    forall k | k in t.blobs && k != key ensures exists r :: t.NamesAt(r, k) {
      var r :| s.NamesAt(r, k);
      if s.Resolves(ref) {
        DiscardRemovesExactlyOwnBlobs(s, ref, k);
        var r' :| s.NamesAt(r', k) && (r' != ref || !s.NamesAt(ref, k));
        assert t.NamesAt(r', k);
      } else {
        assert t.NamesAt(r, k);
      }
    }
  }

  /** A blob that a reference does not name is not touched by discarding it. */
  lemma DiscardSpares(s: StoreState, ref: Ref, key: Digest)
    requires !s.NamesAt(ref, key)
    ensures key in Discarded(s, ref, NO_FAULTS).blobs <==> key in s.blobs
    ensures forall r :: Discarded(s, ref, NO_FAULTS).NamesAt(r, key) <==> r != ref && s.NamesAt(r, key)
  {
    if s.Resolves(ref) { DiscardRemovesExactlyOwnBlobs(s, ref, key); }
  }

  lemma CaptureKeepsNames(s: StoreState, hash: (Algorithm, Bytes) -> string, source: CaptureSource, key: Digest)
    requires source.filestore.kind == Filestore && RefOf(source) !in s.manifests && OrphansAtMost(s, key)
    ensures OrphansAtMost(AfterCapture(s, hash, source), key)
  {
    var m := RawManifest(hash, source);
    FreshPutKeepsNames(s, RefOf(source), m, key);
    var put, t := s.Put(RefOf(source), m), AfterCapture(s, hash, source);
    assert t.NamesAt(RefOf(source), DatabaseComponent(m).digest.Key());
    forall k | k in t.blobs && k != key ensures exists r :: t.NamesAt(r, k) {
      if k in put.blobs {
        var r :| put.NamesAt(r, k);
        assert t.NamesAt(r, k);
      }
    }
  }

  lemma MaskingKeepsNames(s: StoreState, key: Digest, bytes: Bytes)
    requires OrphansAtMost(s, key)
    ensures OrphansAtMost(s.Staged(key, bytes), key)
  {
    var t := s.Staged(key, bytes);
    forall k | k in t.blobs && k != key ensures exists r :: t.NamesAt(r, k) {
      var r :| s.NamesAt(r, k);
      assert t.NamesAt(r, k);
    }
  }

  /** Masking drops no name but that of the raw database component. */
  lemma MaskingKeepsName(raw: Manifest, c: Component, k: Digest)
    requires c.kind == Database && raw.Names(k)
    requires k != DatabaseComponent(raw).digest.Key() || c.digest == DatabaseComponent(raw).digest
    ensures WithDatabase(raw, c).Names(k)
  {
    var masked := WithDatabase(raw, c);
    assert DatabaseComponent(masked) in masked.components && FilestoreComponent(masked) in masked.components;
  }

  /** Superseding the raw manifest loses at most the name of the raw blob. */
  lemma SupersedingKeepsNames(s: StoreState, ref: Ref, raw: Manifest, c: Component, key: Digest)
    requires ref in s.manifests && s.manifests[ref] == Readable(raw) && c.kind == Database
    requires OrphansAtMost(s, key)
    requires c.digest == DatabaseComponent(raw).digest
      || exists r :: r != ref && s.NamesAt(r, DatabaseComponent(raw).digest.Key())
    ensures OrphansAtMost(s.Put(ref, WithDatabase(raw, c)), key)
  {
    var t := s.Put(ref, WithDatabase(raw, c));
    forall k | k in t.blobs && k != key ensures exists r :: t.NamesAt(r, k) {
      var r :| s.NamesAt(r, k);
      if r == ref {
        if k != DatabaseComponent(raw).digest.Key() || c.digest == DatabaseComponent(raw).digest {
          MaskingKeepsName(raw, c, k);
        } else {
          r :| r != ref && s.NamesAt(r, k);
        }
      }
      assert t.NamesAt(r, k);
    }
  }

  lemma AnonymizationKeepsNames(
    p: ManifestPersistence, u: StoreState, ref: Ref, raw: Manifest, c: Component, key: Digest)
    requires PersistsByPut(p) && ref in u.manifests && u.manifests[ref] == Readable(raw)
    requires ShadowOf(ref) !in u.manifests
    requires c.kind == Database && OrphansAtMost(u, key)
    ensures OrphansAtMost(AfterAnonymization(p, u, ref, raw, WithDatabase(raw, c), NO_FAULTS).state, key)
  {
    var shadow, masked := ShadowOf(ref), WithDatabase(raw, c);
    assert |shadow| > |ref|;
    if c.digest == DatabaseComponent(raw).digest {
      SupersedingKeepsNames(u, ref, raw, c, key);
    } else if !p(u, shadow, raw).raised {
      FreshPutKeepsNames(u, shadow, raw, key);
      var parked := u.Put(shadow, raw);
      assert raw.Names(DatabaseComponent(raw).digest.Key());
      assert parked.NamesAt(shadow, DatabaseComponent(raw).digest.Key());
      SupersedingKeepsNames(parked, ref, raw, c, key);
      DiscardKeepsNames(p(parked, ref, masked).state, shadow, key);
    }
  }

  lemma PreparationKeepsNames(
    p: ManifestPersistence, mask: Bytes -> Bytes, hash: (Algorithm, Bytes) -> string, req: Request, f: Faults,
    c: StoreState, t: StoreState, prep: Preparation, key: Digest)
    requires req.source.filestore.kind == Filestore && !req.raw
    requires AnonymizeStep(p, mask, hash, req, RawManifest(hash, req.source), f, c, t, MaskAnswer(prep))
    requires PersistsByPut(p) && f.reap == NO_FAULTS && IsDigestFunction(hash)
    requires var ref := RefOf(req.source);
      ref in c.manifests && c.manifests[ref] == Readable(RawManifest(hash, req.source)) && ShadowOf(ref) !in c.manifests
    requires OrphansAtMost(c, key) && (req.hasRules ==> key == MaskedKey(mask, hash, req))
    ensures OrphansAtMost(t, key)
  {
    var raw := RawManifest(hash, req.source);
    if !MaskFails(hash, DatabaseComponent(raw), req.hasRules, f, c) {
      var masked := MaskedComponent(mask, hash, req.hasRules, raw, c);
      if req.hasRules {
        assert hash(Sha256, c.blobs[DatabaseComponent(raw).digest.Key()]) == hash(Sha256, req.source.dump);
        MaskingKeepsNames(c, key, mask(req.source.dump));
      }
      AnonymizationKeepsNames(p, AfterMasking(mask, hash, req.hasRules, raw, c), RefOf(req.source), raw, masked, key);
    }
  }

  /** The circumstances in which orphans are accounted for: a fresh reference, and unlinks succeed. */
  ghost predicate Tracked(
    p: ManifestPersistence, hash: (Algorithm, Bytes) -> string, req: Request, f: Faults, s: StoreState)
  {
    && IsDigestFunction(hash) && PersistsByPut(p) && Unlinking(f) && s.NoOrphans()
    && RefOf(req.source) !in s.manifests && ShadowOf(RefOf(req.source)) !in s.manifests
  }

  /** Whether the run stages an output of the mask. */
  predicate MayMask(req: Request, f: Faults) { Captures(req, f) && !req.raw && req.hasRules }

  lemma AttemptKeepsNames(
    p: ManifestPersistence, mask: Bytes -> Bytes, hash: (Algorithm, Bytes) -> string, req: Request, f: Faults,
    s: StoreState, t: StoreState, prep: Preparation, captured: bool, key: Digest)
    requires Attempted(p, mask, hash, req, f, s, t, prep, captured) && Tracked(p, hash, req, f, s)
    requires MayMask(req, f) ==> key == MaskedKey(mask, hash, req)
    ensures OrphansAtMost(t, key)
  {
    var ref := RefOf(req.source);
    assert OrphansAtMost(s, key);
    if captured {
      CaptureKeepsNames(s, hash, req.source, key);
      assert |ShadowOf(ref)| > |ref|;
      if !req.raw && !f.evidence {
        PreparationKeepsNames(p, mask, hash, req, f, AfterCapture(s, hash, req.source), t, prep, key);
      }
    } else if t != s {
      FreshPutKeepsNames(s, ref, RawManifest(hash, req.source), key);
      DiscardKeepsNames(s.Put(ref, RawManifest(hash, req.source)), ref, key);
    }
  }

  /** Whatever happens, every blob left behind is named, save perhaps the masked one. */
  lemma RunStrandsOnlyMasked(
    p: ManifestPersistence, mask: Bytes -> Bytes, hash: (Algorithm, Bytes) -> string, req: Request, f: Faults,
    s: StoreState, t: StoreState, prep: Preparation, captured: bool,
    r: Result<CopyResult, CopyError>, u: StoreState)
    requires Attempted(p, mask, hash, req, f, s, t, prep, captured) && Ended(req, f, t, prep, captured, r, u)
    requires Tracked(p, hash, req, f, s)
    ensures OrphansAtMost(u, MaskedKey(mask, hash, req))
  {
    AttemptKeepsNames(p, mask, hash, req, f, s, t, prep, captured, MaskedKey(mask, hash, req));
    DiscardKeepsNames(t, RefOf(req.source), MaskedKey(mask, hash, req));
  }

  /** The masked output is new to the store: no manifest names it, and it is neither of the captured components. */
  ghost predicate FreshMask(mask: Bytes -> Bytes, hash: (Algorithm, Bytes) -> string, req: Request, s: StoreState)
    requires req.source.filestore.kind == Filestore
  {
    var key := MaskedKey(mask, hash, req);
    && key !in s.blobs && (forall r :: !s.NamesAt(r, key)) && !RawManifest(hash, req.source).Names(key)
  }

  /** The run raises between staging the masked output and superseding the captured manifest. */
  ghost predicate RaisesUnsuperseded(
    p: ManifestPersistence, mask: Bytes -> Bytes, hash: (Algorithm, Bytes) -> string, req: Request, f: Faults,
    c: StoreState)
    requires req.source.filestore.kind == Filestore
  {
    var raw := RawManifest(hash, req.source);
    && !f.evidence && !MaskFails(hash, DatabaseComponent(raw), true, f, c)
    && (f.shadowRef
        || AfterAnonymization(p, AfterMasking(mask, hash, true, raw, c), RefOf(req.source), raw,
             WithDatabase(raw, MaskedComponent(mask, hash, true, raw, c)), f.reap).raised)
  }

  /** Where the fresh masked blob is when preparation is over, and whether `ref` names it. */
  lemma PreparedMask(
    p: ManifestPersistence, mask: Bytes -> Bytes, hash: (Algorithm, Bytes) -> string, req: Request, f: Faults,
    c: StoreState, t: StoreState, prep: Preparation)
    requires req.source.filestore.kind == Filestore && !req.raw && req.hasRules && !f.evidence
    requires prep.Ok? ==> prep.value.0.Some?
    requires AnonymizeStep(p, mask, hash, req, RawManifest(hash, req.source), f, c, t, MaskAnswer(prep))
    requires PersistsByPut(p) && f.reap == NO_FAULTS && IsDigestFunction(hash)
    requires var ref := RefOf(req.source);
      ref in c.manifests && c.manifests[ref] == Readable(RawManifest(hash, req.source)) && ShadowOf(ref) !in c.manifests
    requires FreshMask(mask, hash, req, c)
    ensures var key := MaskedKey(mask, hash, req);
      && (RaisesUnsuperseded(p, mask, hash, req, f, c) ==>
            prep.Err? && key in t.blobs && forall r :: !t.NamesAt(r, key))
      && (!RaisesUnsuperseded(p, mask, hash, req, f, c) ==>
            if prep.Ok? then t.NamesAt(RefOf(req.source), key) else key !in t.blobs)
  {
    var raw, ref := RawManifest(hash, req.source), RefOf(req.source);
    if !MaskFails(hash, DatabaseComponent(raw), true, f, c) {
      MaskIsStaged(mask, hash, req, f, c);
      SupersedingNamesMask(p, AfterMasking(mask, hash, true, raw, c), ref, raw,
        MaskedComponent(mask, hash, true, raw, c));
    }
  }

  lemma MaskIsStaged(mask: Bytes -> Bytes, hash: (Algorithm, Bytes) -> string, req: Request, f: Faults, c: StoreState)
    requires req.source.filestore.kind == Filestore && IsDigestFunction(hash) && FreshMask(mask, hash, req, c)
    requires !MaskFails(hash, DatabaseComponent(RawManifest(hash, req.source)), true, f, c)
    ensures var raw, key := RawManifest(hash, req.source), MaskedKey(mask, hash, req);
      var u := AfterMasking(mask, hash, true, raw, c);
      && MaskedComponent(mask, hash, true, raw, c).digest.Key() == key
      && u.manifests == c.manifests && key in u.blobs && forall r :: !u.NamesAt(r, key)
  {
    var raw, key := RawManifest(hash, req.source), MaskedKey(mask, hash, req);
    assert hash(Sha256, c.blobs[DatabaseComponent(raw).digest.Key()]) == hash(Sha256, req.source.dump);
    var u := AfterMasking(mask, hash, true, raw, c);
    forall r ensures !u.NamesAt(r, key) { assert !c.NamesAt(r, key); }
  }

  /** Either superseding names the masked blob at `ref`, or it raises and nothing names it. */
  lemma SupersedingNamesMask(p: ManifestPersistence, u: StoreState, ref: Ref, raw: Manifest, c: Component)
    requires PersistsByPut(p) && ref in u.manifests && u.manifests[ref] == Readable(raw)
    requires ShadowOf(ref) !in u.manifests
    requires c.kind == Database && c.digest.Key() in u.blobs && (forall r :: !u.NamesAt(r, c.digest.Key()))
    ensures var done, key := AfterAnonymization(p, u, ref, raw, WithDatabase(raw, c), NO_FAULTS), c.digest.Key();
      && c.digest != DatabaseComponent(raw).digest
      && (done.raised ==> key in done.state.blobs && forall r :: !done.state.NamesAt(r, key))
      && (!done.raised ==> done.state.NamesAt(ref, key))
  {
    var shadow, masked, key := ShadowOf(ref), WithDatabase(raw, c), c.digest.Key();
    assert |shadow| > |ref|;
    assert DatabaseComponent(masked) in masked.components && DatabaseComponent(raw) in raw.components;
    assert !u.NamesAt(ref, key) && !raw.Names(key);
    if !p(u, shadow, raw).raised {
      var parked := u.Put(shadow, raw);
      var v := p(parked, ref, masked).state;
      forall r ensures !parked.NamesAt(r, key) { NamesAfterPut(u, shadow, raw, r, key); }
      assert !v.NamesAt(shadow, key);
      DiscardSpares(v, shadow, key);
    }
  }

  /** A run that stages an output new to the store strands it iff it raises before the manifest is superseded. */
  lemma FreshMaskIsStrandedIff(
    p: ManifestPersistence, mask: Bytes -> Bytes, hash: (Algorithm, Bytes) -> string, req: Request, f: Faults,
    s: StoreState, t: StoreState, prep: Preparation,
    r: Result<CopyResult, CopyError>, u: StoreState)
    requires Attempted(p, mask, hash, req, f, s, t, prep, true) && Ended(req, f, t, prep, true, r, u)
    requires Tracked(p, hash, req, f, s) && !req.raw && req.hasRules && FreshMask(mask, hash, req, s)
    ensures u.NoOrphans() <==> !RaisesUnsuperseded(p, mask, hash, req, f, AfterCapture(s, hash, req.source))
  {
    var key, ref, c := MaskedKey(mask, hash, req), RefOf(req.source), AfterCapture(s, hash, req.source);
    CaptureIsFreshOfMask(mask, hash, req, s);
    if !f.evidence { PreparedMask(p, mask, hash, req, f, c, t, prep); }
    AttemptKeepsNames(p, mask, hash, req, f, s, t, prep, true, key);
    if RaisesUnsuperseded(p, mask, hash, req, f, c) {
      UnnamedMaskIsStranded(req, f, t, prep, r, u, key);
    } else {
      AccountedMaskLeavesNoOrphan(req, f, t, prep, r, u, key);
    }
  }

  /** Once preparation is over, only a blob that it left unnamed is still unnamed at the end. */
  lemma UnnamedMaskIsStranded(
    req: Request, f: Faults, t: StoreState, prep: Preparation, r: Result<CopyResult, CopyError>, u: StoreState,
    key: Digest)
    requires Ended(req, f, t, prep, true, r, u) && Unlinking(f) && prep.Err?
    requires key in t.blobs && forall x :: !t.NamesAt(x, key)
    ensures !u.NoOrphans()
  {
    DiscardSpares(t, RefOf(req.source), key);
    assert forall x :: u.NamesAt(x, key) ==> t.NamesAt(x, key);
  }

  lemma AccountedMaskLeavesNoOrphan(
    req: Request, f: Faults, t: StoreState, prep: Preparation, r: Result<CopyResult, CopyError>, u: StoreState,
    key: Digest)
    requires Ended(req, f, t, prep, true, r, u) && Unlinking(f) && OrphansAtMost(t, key)
    requires t.NamesAt(RefOf(req.source), key) || key !in t.blobs
    ensures u.NoOrphans()
  {
    if t.NamesAt(RefOf(req.source), key) {
      DiscardOfNamedLeavesNoOrphan(t, RefOf(req.source), key);
    } else {
      DiscardKeepsNames(t, RefOf(req.source), key);
    }
  }

  lemma CaptureIsFreshOfMask(mask: Bytes -> Bytes, hash: (Algorithm, Bytes) -> string, req: Request, s: StoreState)
    requires req.source.filestore.kind == Filestore && FreshMask(mask, hash, req, s)
    requires RefOf(req.source) !in s.manifests && ShadowOf(RefOf(req.source)) !in s.manifests
    ensures FreshMask(mask, hash, req, AfterCapture(s, hash, req.source))
    ensures ShadowOf(RefOf(req.source)) !in AfterCapture(s, hash, req.source).manifests
  {
    var key, raw := MaskedKey(mask, hash, req), RawManifest(hash, req.source);
    assert |ShadowOf(RefOf(req.source))| > |RefOf(req.source)| && DatabaseComponent(raw) in raw.components;
    forall r ensures !AfterCapture(s, hash, req.source).NamesAt(r, key) {
      NamesAfterPut(s, RefOf(req.source), raw, r, key);
    }
  }

  /** Two exceptions are one too many: a store that can spare either has no orphan. */
  lemma NowhereAnOrphan(s: StoreState)
    requires forall key :: OrphansAtMost(s, key)
    ensures s.NoOrphans()
  {
    forall k | k in s.blobs ensures exists r :: s.NamesAt(r, k) {
      var other := k.(hex := k.hex + "x");
      assert |other.hex| != |k.hex|;
      assert OrphansAtMost(s, other);
    }
  }

  /** Without an output of the mask, nothing is ever without a name. */
  lemma UnmaskedRunStrandsNothing(
    p: ManifestPersistence, mask: Bytes -> Bytes, hash: (Algorithm, Bytes) -> string, req: Request, f: Faults,
    s: StoreState, t: StoreState, prep: Preparation, captured: bool,
    r: Result<CopyResult, CopyError>, u: StoreState)
    requires Attempted(p, mask, hash, req, f, s, t, prep, captured) && Ended(req, f, t, prep, captured, r, u)
    requires Tracked(p, hash, req, f, s) && !MayMask(req, f)
    ensures u.NoOrphans()
  {
    forall key ensures OrphansAtMost(t, key) {
      AttemptKeepsNames(p, mask, hash, req, f, s, t, prep, captured, key);
    }
    NowhereAnOrphan(t);
    DiscardPreservesNoOrphans(t, RefOf(req.source));
  }

  /** An output that another manifest names already keeps that name. */
  lemma SharedMaskIsNamed(
    p: ManifestPersistence, mask: Bytes -> Bytes, hash: (Algorithm, Bytes) -> string, req: Request, f: Faults,
    s: StoreState, t: StoreState, prep: Preparation, captured: bool,
    r: Result<CopyResult, CopyError>, u: StoreState, other: Ref)
    requires Attempted(p, mask, hash, req, f, s, t, prep, captured) && Ended(req, f, t, prep, captured, r, u)
    requires Tracked(p, hash, req, f, s) && s.NamesAt(other, MaskedKey(mask, hash, req))
    ensures u.NoOrphans()
  {
    RunStrandsOnlyMasked(p, mask, hash, req, f, s, t, prep, captured, r, u);
    RunProtects(p, mask, hash, req, f, s, t, prep, captured, r, u);
    assert u.NamesAt(other, MaskedKey(mask, hash, req));
  }

  /** Whether or not it is superseded, `ref` goes on naming an output that the raw manifest names. */
  lemma AnonymizationKeepsOutputNamed(
    p: ManifestPersistence, u: StoreState, ref: Ref, raw: Manifest, c: Component, key: Digest)
    requires PersistsByPut(p) && ref in u.manifests && u.manifests[ref] == Readable(raw) && raw.Names(key)
    requires c.kind == Database && (c.digest.Key() == key || c.digest == DatabaseComponent(raw).digest)
    ensures AfterAnonymization(p, u, ref, raw, WithDatabase(raw, c), NO_FAULTS).state.NamesAt(ref, key)
  {
    var masked := WithDatabase(raw, c);
    assert |ShadowOf(ref)| > |ref|;
    assert DatabaseComponent(masked) in masked.components;
    if c.digest == DatabaseComponent(raw).digest { MaskingKeepsName(raw, c, key); }
    assert masked.Names(key);
  }

  lemma OwnMaskIsNamed(
    p: ManifestPersistence, mask: Bytes -> Bytes, hash: (Algorithm, Bytes) -> string, req: Request, f: Faults,
    c: StoreState, t: StoreState, prep: Preparation)
    requires req.source.filestore.kind == Filestore && req.hasRules && IsDigestFunction(hash)
    requires AnonymizeStep(p, mask, hash, req, RawManifest(hash, req.source), f, c, t, MaskAnswer(prep))
    requires PersistsByPut(p) && f.reap == NO_FAULTS
    requires RefOf(req.source) in c.manifests
    requires c.manifests[RefOf(req.source)] == Readable(RawManifest(hash, req.source))
    requires RawManifest(hash, req.source).Names(MaskedKey(mask, hash, req))
    ensures t.NamesAt(RefOf(req.source), MaskedKey(mask, hash, req))
  {
    var raw, key := RawManifest(hash, req.source), MaskedKey(mask, hash, req);
    if !MaskFails(hash, DatabaseComponent(raw), true, f, c) {
      assert hash(Sha256, c.blobs[DatabaseComponent(raw).digest.Key()]) == hash(Sha256, req.source.dump);
      AnonymizationKeepsOutputNamed(p, AfterMasking(mask, hash, true, raw, c), RefOf(req.source), raw,
        MaskedComponent(mask, hash, true, raw, c), key);
    }
  }

  lemma KnownMaskIsNotStranded(
    p: ManifestPersistence, mask: Bytes -> Bytes, hash: (Algorithm, Bytes) -> string, req: Request, f: Faults,
    s: StoreState, t: StoreState, prep: Preparation,
    r: Result<CopyResult, CopyError>, u: StoreState)
    requires Attempted(p, mask, hash, req, f, s, t, prep, true) && Ended(req, f, t, prep, true, r, u)
    requires Tracked(p, hash, req, f, s) && MayMask(req, f) && !FreshMask(mask, hash, req, s)
    ensures u.NoOrphans()
  {
    var key, raw, c := MaskedKey(mask, hash, req), RawManifest(hash, req.source), AfterCapture(s, hash, req.source);
    if raw.Names(key) {
      if !f.evidence { OwnMaskIsNamed(p, mask, hash, req, f, c, t, prep); }
      AttemptKeepsNames(p, mask, hash, req, f, s, t, prep, true, key);
      DiscardOfNamedLeavesNoOrphan(t, RefOf(req.source), key);
    } else {
      var other :| s.NamesAt(other, key);
      SharedMaskIsNamed(p, mask, hash, req, f, s, t, prep, true, r, u, other);
    }
  }

  /** The run stages an output of the mask that nothing names, and raises before any manifest does. */
  ghost predicate StrandsMask(
    p: ManifestPersistence, mask: Bytes -> Bytes, hash: (Algorithm, Bytes) -> string, req: Request, f: Faults,
    s: StoreState)
  {
    && MayMask(req, f) && FreshMask(mask, hash, req, s)
    && RaisesUnsuperseded(p, mask, hash, req, f, AfterCapture(s, hash, req.source))
  }

  /** The exact case of a stranded blob, for every run. */
  lemma RunStrandsMaskedIff(
    p: ManifestPersistence, mask: Bytes -> Bytes, hash: (Algorithm, Bytes) -> string, req: Request, f: Faults,
    s: StoreState, t: StoreState, prep: Preparation, captured: bool,
    r: Result<CopyResult, CopyError>, u: StoreState)
    requires Attempted(p, mask, hash, req, f, s, t, prep, captured) && Ended(req, f, t, prep, captured, r, u)
    requires Tracked(p, hash, req, f, s)
    ensures u.NoOrphans() <==> !StrandsMask(p, mask, hash, req, f, s)
  {
    if !MayMask(req, f) {
      UnmaskedRunStrandsNothing(p, mask, hash, req, f, s, t, prep, captured, r, u);
    } else if FreshMask(mask, hash, req, s) {
      FreshMaskIsStrandedIff(p, mask, hash, req, f, s, t, prep, r, u);
    } else {
      KnownMaskIsNotStranded(p, mask, hash, req, f, s, t, prep, r, u);
    }
  }

  lemma DiscardOfNamedLeavesNoOrphan(t: StoreState, ref: Ref, key: Digest)
    requires t.NamesAt(ref, key) && OrphansAtMost(t, key)
    ensures t.NoOrphans() && Discarded(t, ref, NO_FAULTS).NoOrphans()
  {
    DiscardPreservesNoOrphans(t, ref);
  }

  /** What a run leaves in the store `u`, starting from `s`. */
  ghost predicate StorePromises(
    p: ManifestPersistence, mask: Bytes -> Bytes, hash: (Algorithm, Bytes) -> string, req: Request, f: Faults,
    s: StoreState, r: Result<CopyResult, CopyError>, u: StoreState)
  {
    var ref, key := RefOf(req.source), RawKey(hash, req.source);
    // with all unlinks succeeding the raw dump is gone, unless a retained manifest names it as its filestore
    && (ReapsRaw(p, mask, hash, req, f, s) && !f.scopeRejectsRef ==>
          (key !in u.blobs <==> !(r.Ok? && req.retain && req.source.filestore.digest.Key() == key)))
    // other manifests and their blobs are untouched
    && (PersistsByPut(p) ==> Protects(s, u, ref))
    // the staged capture survives exactly when the run returned and was asked to retain it
    && (PersistsByPut(p) && Unlinking(f) && !f.scopeRejectsRef && ref !in s.manifests ==>
          (ref in u.manifests <==> r.Ok? && req.retain))
    // with unlinks succeeding, no blob but the masked output can be left without a manifest that names it
    && (Tracked(p, hash, req, f, s) ==> OrphansAtMost(u, MaskedKey(mask, hash, req)))
    // and that one is left exactly when the run raised between staging it and superseding the manifest
    && (Tracked(p, hash, req, f, s) ==> (u.NoOrphans() <==> !StrandsMask(p, mask, hash, req, f, s)))
    // whatever an unlink failure leaves behind after a success is on record
    && (r.Ok? && !req.retain ==> DiscardOnSuccessResidual in r.value.checkpoints || ref !in u.manifests)
    && (r.Ok? && PersistsByPut(p) && ShadowOf(ref) !in s.manifests ==>
          RawReapResidual in r.value.checkpoints || ShadowOf(ref) !in u.manifests)
  }

  lemma RunKeepsStorePromises(
    p: ManifestPersistence, mask: Bytes -> Bytes, hash: (Algorithm, Bytes) -> string, req: Request, f: Faults,
    s: StoreState, t: StoreState, prep: Preparation, captured: bool,
    r: Result<CopyResult, CopyError>, u: StoreState)
    requires Attempted(p, mask, hash, req, f, s, t, prep, captured) && Ended(req, f, t, prep, captured, r, u)
    ensures StorePromises(p, mask, hash, req, f, s, r, u)
  {
    var ref := RefOf(req.source);
    if ReapsRaw(p, mask, hash, req, f, s) && !f.scopeRejectsRef {
      RunReapsRaw(p, mask, hash, req, f, s, t, prep, captured, r, u);
    }
    if PersistsByPut(p) {
      RunProtects(p, mask, hash, req, f, s, t, prep, captured, r, u);
    }
    if PersistsByPut(p) && Unlinking(f) && !f.scopeRejectsRef && ref !in s.manifests {
      AttemptKeepsRef(p, mask, hash, req, f, s, t, prep, captured);
      RunKeepsRef(req, f, t, prep, captured, r, u);
    }
    if Tracked(p, hash, req, f, s) {
      RunStrandsOnlyMasked(p, mask, hash, req, f, s, t, prep, captured, r, u);
      RunStrandsMaskedIff(p, mask, hash, req, f, s, t, prep, captured, r, u);
    }
    if r.Ok? {
      RunRecordsResiduals(p, mask, hash, req, f, s, t, prep, captured, r, u);
    }
  }

  datatype Readiness = Ready(manifest: Manifest) | NotReady(integrity: bool)

  class DataArtifactCopyCoordinator {
    const store: StagedArtifactStore
    const mask: Bytes -> Bytes
    const persistence: ManifestPersistence
    var lastState: LifecycleState
    /** Everything ever streamed into a target database. */
    var delivered: seq<Bytes>

    constructor (store: StagedArtifactStore, mask: Bytes -> Bytes, persistence: ManifestPersistence)
      ensures this.store == store && this.mask == mask && this.persistence == persistence
      ensures lastState == Accepted && delivered == []
    {
      this.store, this.mask, this.persistence := store, mask, persistence;
      lastState, delivered := Accepted, [];
    }

    // -- capture (put before stage, compensating discard) -------------------

    method Capture(source: CaptureSource, f: Faults) returns (r: Result<Manifest, CopyError>)
      modifies store
      ensures r.Ok? <==> source.filestore.kind == Filestore && !f.dump && !f.capturePut && !f.captureStage
      ensures r.Ok? ==> r.value == RawManifest(store.hash, source)
      ensures r.Ok? ==> store.State() == AfterCapture(old(store.State()), store.hash, source)
      ensures r.Err? && store.State() != old(store.State()) ==>
        && source.filestore.kind == Filestore
        && store.State() == Discarded(
             old(store.State()).Put(RefOf(source), RawManifest(store.hash, source)), RefOf(source), f.captureDiscard)
    {
      if f.dump || source.filestore.kind != Filestore { return Err(CaptureFailed); }
      var m := RawManifest(store.hash, source);
      var put := store.Put(RefOf(source), m, f.capturePut);
      if put.Err? { return Err(CaptureFailed); }
      var staged := store.Stage(DatabaseComponent(m).digest, source.dump, f.captureStage);
      if staged.Err? {
        var _ := store.Discard(RefOf(source), f.captureDiscard);
        return Err(CaptureFailed);
      }
      return Ok(m);
    }

    // -- anonymize -----------------------------------------------------------

    /** The mask transform: verified raw bytes in, staged masked bytes out. */
    method MaskComponent(c: Component, hasRules: bool, f: Faults) returns (r: Result<Component, CopyError>)
      modifies store
      ensures r.Err? <==> MaskFails(store.hash, c, hasRules, f, old(store.State()))
      ensures r.Err? ==> store.State() == old(store.State())
      ensures r.Ok? && (!hasRules || c.kind != Database) ==> r.value == c && store.State() == old(store.State())
      ensures r.Ok? && hasRules && c.kind == Database ==>
        var raw := old(store.blobs)[c.digest.Key()];
        && r.value == c.(digest := Digest(Sha256, store.hash(Sha256, mask(raw))))
        && store.State() == old(store.State()).Staged(r.value.digest.Key(), mask(raw))
    {
      if !hasRules || c.kind != Database { return Ok(c); }
      var content := store.OpenComponent(c, f.maskOpen);
      if content.Err? || f.maskRun { return Err(MaskFailed); }
      var masked := mask(content.value);
      var digest := Digest(Sha256, store.hash(Sha256, masked));
      var staged := store.Stage(digest, masked, f.maskStage);
      if staged.Err? { return Err(MaskFailed); }
      return Ok(c.(digest := digest));
    }

    /** The injected port may do anything to the store. */
    method Persist(ref: Ref, m: Manifest) returns (raised: bool)
      modifies store
      ensures raised == persistence(old(store.State()), ref, m).raised
      ensures store.State() == persistence(old(store.State()), ref, m).state
    {
      var p := persistence(store.State(), ref, m);
      store.blobs, store.manifests := p.state.blobs, p.state.manifests;
      return p.raised;
    }

    // -- readiness and delivery ---------------------------------------------

    method ValidateForRestore(ref: Ref, unsafe: bool) returns (r: Result<Readiness, CopyError>)
      ensures r.Ok? && r.value.Ready? <==>
        store.State().Resolves(ref) && !unsafe && Verified(store.hash, store.State(), ref)
      ensures r.Ok? && r.value.Ready? ==> r.value.manifest == store.manifests[ref].manifest
      ensures r == Ok(NotReady(true)) <==>
        && store.State().Resolves(ref) && !unsafe && !Verified(store.hash, store.State(), ref)
        && DatabaseComponent(store.manifests[ref].manifest).digest.Key() in store.blobs
      ensures r.Err? <==> ref in store.manifests && store.manifests[ref].Unsafe?
    {
      var resolved := store.Resolve(ref);
      match resolved
      case Err(Custody) => return Err(StoreFailed(Custody));
      case Err(_) => return Ok(NotReady(false));
      case Ok(m) =>
        for i := 0 to |m.components|
          invariant forall j :: 0 <= j < i && m.components[j].kind == Database ==>
            !unsafe && Verified(store.hash, store.State(), ref)
        {
          if m.components[i].kind == Database {
            var content := store.OpenComponent(m.components[i], unsafe);
            if content == Err(Integrity) { return Ok(NotReady(true)); }
            if content.Err? { return Ok(NotReady(false)); }
          }
        }
        return Ok(Ready(m));
    }

    /** Validates again, provisions, and streams the verified bytes of the database component. */
    method Restore(ref: Ref, f: Faults) returns (r: Result<(), CopyError>)
      modifies this`delivered
      ensures delivered == old(delivered)
        || Streamed(store.hash, store.State(), ref, old(delivered), delivered, r.Ok?)
      ensures r.Ok? ==> delivered != old(delivered)
      ensures Faultless(f) && store.State().Resolves(ref) && Verified(store.hash, store.State(), ref) ==> r.Ok?
    {
      var readiness := ValidateForRestore(ref, f.restoreUnsafe);
      if readiness.Err? || readiness.value.NotReady? { return Err(RestoreFailed); }
      if f.provision { return Err(RestoreFailed); }
      var bytes := store.OpenComponent(DatabaseComponent(readiness.value.manifest), f.open);
      if bytes.Err? { return Err(RestoreFailed); }
      if f.stream.Some? {
        var sent := if f.stream.value < |bytes.value| then f.stream.value else |bytes.value|;
        delivered := delivered + [bytes.value[..sent]];
        return Err(RestoreFailed);
      }
      delivered := delivered + [bytes.value];
      return Ok(());
    }

    // -- the anonymizing path -------------------------------------------------

    method PersistMasked(ref: Ref, raw: Manifest, masked: Manifest, f: Faults)
      returns (r: Result<seq<Checkpoint>, CopyError>)
      modifies store
      ensures f.shadowRef && DatabaseComponent(masked).digest != DatabaseComponent(raw).digest ==>
        r.Err? && store.State() == old(store.State())
      ensures !(f.shadowRef && DatabaseComponent(masked).digest != DatabaseComponent(raw).digest) ==>
        var done := AfterAnonymization(persistence, old(store.State()), ref, raw, masked, f.reap);
        && store.State() == done.state && (r.Err? <==> done.raised)
        && (r.Ok? ==> r.value == ReapCheckpoints(persistence, old(store.State()), ref, raw, masked, f.reap))
    {
      if DatabaseComponent(masked).digest != DatabaseComponent(raw).digest {
        if f.shadowRef { return Err(EvidenceRejected); }
        var raised := Persist(ShadowOf(ref), raw);
        if raised { return Err(PersistenceFailed); }
        raised := Persist(ref, masked);
        var reaped := store.Discard(ShadowOf(ref), f.reap);
        if raised { return Err(PersistenceFailed); }
        var residual := reaped.Err? || reaped.value.residuals != [];
        return Ok(if residual then [RawReapResidual] else []);
      } else {
        var raised := Persist(ref, masked);
        if raised { return Err(PersistenceFailed); }
        return Ok([]);
      }
    }

    method Anonymize(req: Request, raw: Manifest, f: Faults)
      returns (r: Result<(Digest, seq<Checkpoint>), CopyError>)
      requires raw.restoreSetId == RefOf(req.source)
      modifies store
      ensures AnonymizeStep(persistence, mask, store.hash, req, raw, f, old(store.State()), store.State(), r)
    {
      var component := MaskComponent(DatabaseComponent(raw), req.hasRules, f);
      if component.Err? { return Err(component.error); }
      var masked := WithDatabase(raw, component.value);
      var persisted := PersistMasked(raw.restoreSetId, raw, masked, f);
      if persisted.Err? { return Err(persisted.error); }
      return Ok((component.value.digest, persisted.value + [Anonymized]));
    }

    // -- delivery ---------------------------------------------------------------

    method Deliver(ref: Ref, masked: Option<Digest>, f: Faults) returns (r: Result<(), CopyError>)
      modifies this`delivered
      ensures delivered != old(delivered) ==>
        && Guarded(store.State(), ref, masked)
        && Streamed(store.hash, store.State(), ref, old(delivered), delivered, r.Ok?)
      ensures r.Ok? ==> delivered != old(delivered)
      ensures Faultless(f) && Guarded(store.State(), ref, masked) && Verified(store.hash, store.State(), ref) ==> r.Ok?
    {
      var readiness := ValidateForRestore(ref, f.readyUnsafe);
      if readiness.Err? { return Err(readiness.error); }
      if readiness.value.NotReady? {
        return Err(if readiness.value.integrity then CaptureIntegrity else CaptureNotReady);
      }
      if masked.Some? && DatabaseComponent(readiness.value.manifest).digest != masked.value {
        return Err(AnonymizationInconsistent);
      }
      r := Restore(ref, f);
    }

    /** The best-effort discard after success: a residual or an exception becomes a checkpoint. */
    method DiscardOnSuccess(ref: Ref, retain: bool, f: Faults) returns (checkpoints: seq<Checkpoint>)
      modifies store
      ensures store.State()
           == if retain then old(store.State()) else Discarded(old(store.State()), ref, f.successDiscard)
      ensures checkpoints == if retain || Silent(DiscardResult(old(store.State()), ref, f.successDiscard)) then []
                             else [DiscardOnSuccessResidual]
    {
      if retain { return []; }
      var outcome := store.Discard(ref, f.successDiscard);
      var residual := outcome.Err? || outcome.value.residuals != [];
      return if residual then [DiscardOnSuccessResidual] else [];
    }

    /** Reaches CLEANUP_REQUIRED first, then discards the staged reference best-effort. */
    method Compensate(ref: Option<Ref>, revision: nat, f: Faults)
      modifies this`lastState, store
      ensures lastState == CleanupRequired
      ensures store.State() == if ref.Some? && !f.scopeRejectsRef
        then Discarded(old(store.State()), ref.value, f.compensation) else old(store.State())
    {
      var commit := BuildTerminalCommit(Failed, ["capture_copy_failed"]);
      var state := AdvanceLifecycle(commit.value, revision + 1, CleanupRequired);
      lastState := state.value.0;
      if ref.Some? && !f.scopeRejectsRef {
        var _ := store.Discard(ref.value, f.compensation);
      }
    }

    // -- the operation -----------------------------------------------------------

    method Prepare(req: Request, raw: Manifest, f: Faults) returns (r: Preparation)
      requires raw.restoreSetId == RefOf(req.source)
      modifies store
      ensures Prepared(persistence, mask, store.hash, req, raw, f, old(store.State()), store.State(), r)
    {
      if req.raw {
        if !GrantValid(req) { return Err(RawDeliveryRefused); }
        return Ok((None, [RawException]));
      }
      var anonymized := Anonymize(req, raw, f);
      match anonymized
      case Err(e) => return Err(e);
      case Ok((digest, checkpoints)) => return Ok((Some(digest), checkpoints));
    }

    /**
     The guarded body of `run`.  `captured` tells whether a reference is staged
     when it raises; `t`, the state delivery starts from, and `prep` are for the proof.
     */
    method Attempt(req: Request, f: Faults)
      returns (r: Result<CopyResult, CopyError>, captured: bool, ghost t: StoreState, ghost prep: Preparation)
      modifies this, store
      ensures Attempted(persistence, mask, store.hash, req, f, old(store.State()), t, prep, captured)
      ensures r.Err? ==> store.State() == t
      ensures Faultless(f) && req.source.filestore.kind == Filestore ==> captured
      ensures Faultless(f) && prep.Ok? && DeliverableAt(store.hash, t, RefOf(req.source), prep.value.0) ==> r.Ok?
      ensures r.Ok? ==> captured && prep.Ok? && lastState == r.value.state == Succeeded
      ensures r.Ok? ==> store.State() == AfterSuccess(req, f, t)
      ensures r.Ok? ==>
        r.value.checkpoints == [Captured] + prep.value.1 + [IntegrityVerified] + SuccessCheckpoints(req, f, t)
      ensures r.Ok? ==> delivered != old(delivered)
      ensures delivered != old(delivered) ==>
        && captured && prep.Ok?
        && Guarded(t, RefOf(req.source), prep.value.0)
        && Streamed(store.hash, t, RefOf(req.source), old(delivered), delivered, r.Ok?)
    {
      var ref := RefOf(req.source);
      captured, prep := false, Err(CaptureFailed);
      var capture := Capture(req.source, f);
      t := store.State();
      if capture.Err? { return Err(capture.error), false, t, prep; }
      captured := true;
      if f.evidence { return Err(EvidenceRejected), true, t, prep; }
      var prepared := Prepare(req, capture.value, f);
      t, prep := store.State(), prepared;
      if prepared.Err? { return Err(prepared.error), true, t, prep; }
      var delivery := Deliver(ref, prepared.value.0, f);
      if delivery.Err? { return Err(delivery.error), true, t, prep; }
      var checkpoints := [Captured] + prepared.value.1 + [IntegrityVerified];
      var commit := BuildTerminalCommit(Succeeded, checkpoints);
      lastState := commit.value;
      var gc := DiscardOnSuccess(ref, req.retain, f);
      return Ok(CopyResult(checkpoints + gc, commit.value)), true, t, prep;
    }

    /** An attempt that raises is compensated: what it captured is discarded. */
    method AttemptOrCompensate(req: Request, revision: nat, f: Faults)
      returns (r: Result<CopyResult, CopyError>, captured: bool, ghost t: StoreState, ghost prep: Preparation)
      modifies this, store
      ensures lastState == if r.Ok? then Succeeded else CleanupRequired
      ensures Attempted(persistence, mask, store.hash, req, f, old(store.State()), t, prep, captured)
      ensures Ended(req, f, t, prep, captured, r, store.State())
      ensures Faultless(f) && req.source.filestore.kind == Filestore ==> captured
      ensures Faultless(f) && prep.Ok? && DeliverableAt(store.hash, t, RefOf(req.source), prep.value.0) ==> r.Ok?
      ensures r.Ok? ==> delivered != old(delivered)
      ensures delivered != old(delivered) ==>
        && captured && prep.Ok?
        && Guarded(t, RefOf(req.source), prep.value.0)
        && Streamed(store.hash, t, RefOf(req.source), old(delivered), delivered, r.Ok?)
    {
      r, captured, t, prep := Attempt(req, f);
      if r.Err? {
        Compensate(if captured then Some(RefOf(req.source)) else None, revision, f);
      }
    }

    /** The circumstances in which nothing may stop a run. */
    ghost predicate Succeeds(req: Request, f: Faults, s: StoreState) {
      && Faultless(f) && req.source.filestore.kind == Filestore && (req.raw ==> GrantValid(req))
      && IsDigestFunction(store.hash) && PersistsByPut(persistence) && NeverRaises(persistence)
      && Uncorrupted(store.hash, s)
    }

    /**
     Capture, anonymize or pass the raw gate, verify, deliver.  For every fault
     schedule and every behaviour of the persistence port:
     the operation ends SUCCEEDED exactly when it returns and CLEANUP_REQUIRED
     exactly when it raises, and a target receives the payload or, on a raise, a prefix of it or nothing.
     */
    method Run(req: Request, f: Faults) returns (r: Result<CopyResult, CopyError>)
      modifies this, store
      ensures lastState == if r.Ok? then Succeeded else CleanupRequired
      ensures IsDigestFunction(store.hash) ==>
        delivered == old(delivered) || Received(old(delivered), delivered, Payload(req, mask), r.Ok?)
      ensures r.Ok? ==> |delivered| == |old(delivered)| + 1
      ensures IsDigestFunction(store.hash) && req.raw && delivered != old(delivered) ==> GrantValid(req)
      ensures Succeeds(req, f, old(store.State())) ==> r.Ok?
      ensures StorePromises(persistence, mask, store.hash, req, f, old(store.State()), r, store.State())
    {
      var started := AdvanceLifecycle(Accepted, 0, InProgress);
      lastState := started.value.0;
      var captured; ghost var t, prep;
      r, captured, t, prep := AttemptOrCompensate(req, started.value.1, f);
      ghost var s := old(store.State());
      if IsDigestFunction(store.hash) && delivered != old(delivered) {
        StreamsOnlyPayload(persistence, mask, store.hash, req, f, s, t, prep, old(delivered), delivered, r.Ok?);
      }
      if captured && Succeeds(req, f, s) {
        FaultlessPreparation(persistence, mask, store.hash, req, f, s, t, prep);
      }
      RunKeepsStorePromises(persistence, mask, store.hash, req, f, s, t, prep, captured, r, store.State());
    }
  }

  const NO_FAULT_AT_ALL := Faults(
    false, false, false, NO_FAULTS, false, false, false, false, false, NO_FAULTS,
    false, false, false, false, None, NO_FAULTS, false, NO_FAULTS)

  /**
   The exception in `StorePromises` is real: a faultless, retained run whose
   filestore component carries the digest of the raw dump leaves the raw blob staged.
   */
  method RetainedFilestoreKeepsRawBlob(hash: (Algorithm, Bytes) -> string) returns (kept: bool)
    requires IsDigestFunction(hash)
    ensures kept
  {
    var store := new StagedArtifactStore(hash);
    var coordinator := new DataArtifactCopyCoordinator(
      store, bytes => [2], (s: StoreState, ref: Ref, m: Manifest) => Persisted(s.Put(ref, m), false));
    var filestore := Component(Filestore, "filestore", "v1", Digest(Sha256, hash(Sha256, [1])));
    var req := Request(CaptureSource("db", [1], filestore), true, "op", false, true, None, "env", 0);
    ghost var s := store.State();
    assert forall r, key :: !s.NamesAt(r, key);
    var r := coordinator.Run(req, NO_FAULT_AT_ALL);
    assert [1 as byte] != [2 as byte] by { assert [1 as byte][0] != [2 as byte][0]; }
    assert ReapsRaw(coordinator.persistence, coordinator.mask, hash, req, NO_FAULT_AT_ALL, s);
    kept := RawKey(hash, req.source) in store.blobs;
  }

  lemma RaisingStrands(
    p: ManifestPersistence, mask: Bytes -> Bytes, hash: (Algorithm, Bytes) -> string, req: Request, s: StoreState)
    requires IsDigestFunction(hash) && forall u, ref, m :: p(u, ref, m) == Persisted(u, true)
    requires s == StoreState(map[], map[]) && MayMask(req, NO_FAULT_AT_ALL)
    requires mask(req.source.dump) != req.source.dump
    requires req.source.filestore.digest.Key() != MaskedKey(mask, hash, req)
    ensures Tracked(p, hash, req, NO_FAULT_AT_ALL, s) && StrandsMask(p, mask, hash, req, NO_FAULT_AT_ALL, s)
  {
    assert forall r, key :: !s.NamesAt(r, key);
    var c := AfterCapture(s, hash, req.source);
    assert c.blobs[RawKey(hash, req.source)] == req.source.dump;
  }

  /** From an empty store, a run whose persistence raises leaves the mask's output without a manifest. */
  method RaisingPersistenceStrandsMask(hash: (Algorithm, Bytes) -> string)
    returns (store: StagedArtifactStore, orphan: Digest)
    requires IsDigestFunction(hash)
    ensures orphan in store.blobs && forall r :: !store.State().NamesAt(r, orphan)
  {
    store := new StagedArtifactStore(hash);
    var coordinator := new DataArtifactCopyCoordinator(
      store, bytes => [2], (s: StoreState, ref: Ref, m: Manifest) => Persisted(s, true));
    var filestore := Component(Filestore, "filestore", "v1", Digest(Sha256, hash(Sha256, [3])));
    var req := Request(CaptureSource("db", [1], filestore), true, "op", false, true, None, "env", 0);
    ghost var s := store.State();
    assert [1 as byte] != [2 as byte] by { assert [1 as byte][0] != [2 as byte][0]; }
    assert [3 as byte] != [2 as byte] by { assert [3 as byte][0] != [2 as byte][0]; }
    RaisingStrands(coordinator.persistence, coordinator.mask, hash, req, s);
    var r := coordinator.Run(req, NO_FAULT_AT_ALL);
    orphan := MaskedKey(coordinator.mask, hash, req);
    ghost var left :| left in store.blobs && forall r :: !store.State().NamesAt(r, left);
    assert left == orphan;
  }
}
