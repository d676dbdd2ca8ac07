# Verified models of odoo-forge's stateful protocols

Dafny models of six protocols of odoo-forge, each with the properties that its
callers rely on, for every input, every pattern of failing calls and every
reachable state.  `dafny verify dfyconfig.toml` checks everything.

- **Copying data artifacts** (`StagedStore`, `DurableOperations`,
  `CopyCoordinator`): capture, anonymize, deliver over a content-addressed
  staging store, with deduplication, supersession through a shadow reference,
  a fail-closed digest check, compensation and discard-on-success.  Every port
  call may fail; the manifest persistence may do anything to the store.
- **Ownership and registration** (`OwnershipLedger`, `Registration`): the
  append-only ledger with its three ways of finding a latest record, resumable
  `converge`, key rotation and one-time evidence; and concurrent registration,
  linearized against the in-memory registry from any table with unique pointers
  and operation ids.
- **Lifecycle recovery** (`LifecycleRecovery`): the service as a trace of
  effects, calls that raise among them; registry and gateway answers are
  arbitrary at every call.
- **Docker backend** (`BackendCustody`, `DockerBackend`): `run` with its
  created-only ledger and reverse rollback, `destroy` gated by labels, runtime
  removal and custody, and the round trip of the two.
- **Manifest pipeline** (`Manifests`, `Projection`, `MaterializedStates`,
  `MountView`, `Workspaces`, `Pipeline`): composition, lock, projection, scan,
  drift, mount view, promotion, which derive the same facts independently and
  are proved to agree.
- **Plan graphs and names** (`CycleSearch`, `PlanGraphs`, `InstanceNames`): the
  recursive and the explicit-stack cycle search; instance names and the three
  derivations of an instance reference.

Objects that the source updates in place are classes, its loops are methods
with loops; each is tied to a specification function or predicate on values,
about which the lemmas speak.  Faults are arguments: a record saying which
calls fail, or a number of writes that land.

## What turned out to be false, and when exactly it holds

- *The raw dump is gone after every anonymizing run.*  Not when the run
  returns, was asked to retain, and the filestore component carries the raw
  dump's digest (`RetainedFilestoreKeepsRawBlob`, `RunReapsRaw`).
- *A run leaves no blob without a manifest.*  It leaves the mask's output iff
  that output was new to the store and to the captured manifest, and the run
  raised after staging it and before superseding that manifest
  (`RunStrandsOnlyMasked`, `RunStrandsMaskedIff`, both part of what `Run`
  ensures; `RaisingPersistenceStrandsMask` is such a run).
- *`converge` can be rerun after any crash.*  Not when the very first write of
  a brand-new authority failed: the lock file then exists without a state file
  and every rerun is refused (`ConvergeIsResumable`).
- *`reserve` keeps custody exclusive.*  Only for a free name and a fresh
  operation (`ReserveKeepsCustodyIff`).  *Rotation keeps the ledger readable.*
  Only if the drawn key id does not displace a key in use
  (`RotationStaysValidIff`).
- *The SQL registry answers as the in-memory one.*  Not for a pointer held by a
  row without a receipt (`LegacyRowIsAnsweredDifferently`, `LookupAgreesIff`):
  a client of such a pointer gets no answer at all
  (`LegacyPointerIsNeverAnswered`, `UndisturbedClientIsAnsweredIff`).
- *Nothing is deleted twice.*  A deletion may be attempted once more by a later
  run if it raised, or if it returned and appending its event to the journal
  lost that event; the latter only where no history was journaled before
  (`RunMany`, `MayRepeatIff`, `TwiceDeletedWasLost`).
- *Evidence is accepted only for a container that is active.*  It is also
  accepted after the container was retired, because any active record in the
  log counts (`RetiredEvidenceIsAccepted`); it speaks for an active container
  iff one of those records has not been retired since (`AcceptedIsCurrentIff`).
- *Every resource a failed `run` created is removed or named.*  Not a bootstrap
  container that started but left no readable id file
  (`UnidentifiedBootstrapStays`; the exact condition is in the contract of
  `Run`).
- *A stale `complete` never removes a re-recorded entry.*  It does iff the entry
  was consumed again and carries the very same proof (`StaleCompleteRemovesIff`).
- *A fully projected lock has no drift.*  Not with a git layer that declares no
  repositories (`CoherentIsCleanIff`).
- *All derived references agree.*  The reconciler keeps the record's raw names,
  so it agrees iff they are valid tokens (`ReferencesAgree`).  Names may also be
  too long for `destroy` although `run` takes them (`ReferenceIsSafeIff`), and
  the network name does not mark where the project ends: instances of two
  projects can share a network iff one project continues the other with a dash
  and a valid token (`NetworksCanCoincideIff`, `SameNetworkIff`).

## Assumptions

- Hashes are functions; where a proof needs it, distinct contents have distinct
  digests.  Signatures are values that name key and payload.
- Docker, file system and git calls are atomic: they succeed or leave things as
  they were.  A Docker probe raises or answers truthfully.
- PostgreSQL statements see what was committed before them, an insert waits for
  conflicting uncommitted rows, and pointer and operation id are unique.
- Quarantine keeps the identifier of what it quarantines; timestamps are
  comparable.
- Lower-casing leaves valid name characters alone, and a digest is hexadecimal.
- The database provider's `provision` is all or nothing and owns only what did
  not exist before.  A creation token is never empty.
- Manifests given to the pipeline have distinct layer names, none of them
  `core` or `enterprise`, and distinct directory names within a layer; layer and
  directory names are single path segments; the artifact resolver echoes source
  and version.  The manifests directory of the store only holds files named by
  safe references.

## Model

| member | source | states |
|---|---|---|
| `CycleSearch.RecursiveSearch.Visit` | docs/tools/platform_portfolio/validate.py:231-238 | the recursive search from one node ends in the state of the reference search `Explore`: colours and emitted back edges, in order |
| `CycleSearch.RecursiveSearch.Run` | docs/tools/platform_portfolio/validate.py:240-242 | over all start nodes it ends in the state of `ExploreAll` |
| `CycleSearch.StackSearch.Step` | docs/tools/platform_portfolio/validate.py:306-319 | one pop or push leaves the remaining work with the same result, and strictly less of it |
| `CycleSearch.StackSearch.Visit` | docs/tools/platform_portfolio/validate.py:303-319 | the explicit-stack search terminates and ends in the same state `Explore` as the recursive one |
| `CycleSearch.StackSearch.Run` | docs/tools/platform_portfolio/validate.py:302-319 | over all start nodes it ends in the state of `ExploreAll` |
| `CycleSearch.SearchesAgree` | docs/tools/platform_portfolio/validate.py:229-242 | on one graph and start order both searches emit the same sequence of back edges; it is empty iff no cycle is reachable, and every emitted edge closes a reachable cycle |
| `CycleSearch.EmitsOnlyReachableCycles` | docs/tools/platform_portfolio/validate.py:231-238 | soundness: every emitted edge closes a cycle reachable from a start node |
| `CycleSearch.EmitsIffCycleReachable` | docs/tools/platform_portfolio/validate.py:229-242 | a back edge is emitted iff a cycle can be reached from the start nodes |
| `CycleSearch.SilentIffAcyclic` | docs/tools/platform_portfolio/validate.py:293-319 | started from every node with successors, no edge is emitted iff the whole graph is acyclic |
| `PlanGraphs.ValidateGraphs` | docs/tools/platform_portfolio/validate.py:154-319 | the modelled checks report nothing iff all ids are unique, all references resolve, and both the edge graph and the decomposition graph have no closed walk |
| `PlanGraphs.CheckEdges` | docs/tools/platform_portfolio/validate.py:215-242 | edge checks are silent iff both ends of every edge exist and the edge graph is acyclic |
| `PlanGraphs.CheckDecompositions` | docs/tools/platform_portfolio/validate.py:244-319 | with unique decomposition ids, the checks are silent iff every reference resolves and the dependency graph is acyclic |
| `StagedStore.StagedArtifactStore.Stage` | src/odoo_forge_postgres_docker/staged_store.py:103-112 | staging adds exactly the blob under its digest key; a failure leaves the store unchanged |
| `StagedStore.StagedArtifactStore.Put` | src/odoo_forge_postgres_docker/staged_store.py:114-119 | the manifest file of the reference is replaced, or nothing changes |
| `StagedStore.StagedArtifactStore.Resolve` | src/odoo_forge_postgres_docker/staged_store.py:121-136 | the stored manifest, or the error of an absent, unsafe or unreadable file |
| `StagedStore.StagedArtifactStore.OpenComponent` | src/odoo_forge_postgres_docker/staged_store.py:138-147 | the blob's bytes only when their digest is the component's, otherwise a custody or integrity error |
| `StagedStore.StagedArtifactStore.ReferencedExcluding` | src/odoo_forge_postgres_docker/staged_store.py:177-192 | exactly the digest keys named by some other resolvable manifest |
| `StagedStore.StagedArtifactStore.Discard` | src/odoo_forge_postgres_docker/staged_store.py:149-175 | the loop over components realises `Discarded` and `DiscardResult` for every pattern of failing unlinks |
| `StagedStore.DiscardKeepsSharedBlobs` | src/odoo_forge_postgres_docker/staged_store.py:149-192 | a blob that another resolvable manifest names is never removed, whatever fails |
| `StagedStore.DiscardRemovesExactlyOwnBlobs` | src/odoo_forge_postgres_docker/staged_store.py:149-175 | without faults exactly the blobs that only the reference names disappear, with its manifest |
| `StagedStore.DiscardPreservesNoOrphans` | src/odoo_forge_postgres_docker/staged_store.py:149-175 | 'every blob is named by some manifest' is preserved when unlinks succeed |
| `StagedStore.OrphansExactlyFromFailedUnlinks` | src/odoo_forge_postgres_docker/staged_store.py:149-175 | with faults, an orphan appears iff a failed blob unlink outlives its manifest |
| `StagedStore.ResidualExactlyOnFailure` | src/odoo_forge_postgres_docker/staged_store.py:149-206 | for a resolving reference a residual is reported iff some attempted unlink failed |
| `StagedStore.DiscardIsIdempotent` | src/odoo_forge_postgres_docker/staged_store.py:149-206 | once its manifest is gone, discarding again succeeds silently and changes nothing |
| `StagedStore.SilentDiscardIsComplete` | src/odoo_forge_postgres_docker/staged_store.py:149-206 | a discard that reports no residual did everything a faultless one does |
| `DurableOperations.AdvancesNeverMintOrFlip` | src/odoo_forge/durable_operations/service.py:98-119 | over any accepted sequence of advances the revision counts the steps, the state never regresses, nothing becomes terminal without a terminal commit, and a published outcome never flips |
| `CopyCoordinator.DataArtifactCopyCoordinator.Capture` | src/odoo_forge_postgres_docker/capture.py:372-466 | put before stage; on a staging failure the put reference is discarded again |
| `CopyCoordinator.DataArtifactCopyCoordinator.MaskComponent` | src/odoo_forge_postgres_docker/mask_transform.py:522-555 | verified raw bytes in, the mask's output staged under its own digest; a failure changes nothing |
| `CopyCoordinator.DataArtifactCopyCoordinator.PersistMasked` | src/odoo_forge/data_artifacts/coordinator.py:266-326 | a changed manifest is superseded through a shadow reference whose discard reaps the raw blob |
| `CopyCoordinator.DataArtifactCopyCoordinator.Anonymize` | src/odoo_forge/anonymization/apply.py:43-66 | mask, persist and the digest the later guard compares with, related to the store before and after |
| `CopyCoordinator.DataArtifactCopyCoordinator.ValidateForRestore` | src/odoo_forge_postgres_docker/staged_capability.py:56-100 | ready iff the reference resolves and its database blob is present with the right digest; the three refusals told apart |
| `CopyCoordinator.DataArtifactCopyCoordinator.Restore` | src/odoo_forge_postgres_docker/target_handoffs.py:39-51 | what a target receives has the resolved manifest's database digest: all of it if the call returns, a prefix or nothing if it raises |
| `CopyCoordinator.DataArtifactCopyCoordinator.Deliver` | src/odoo_forge/data_artifacts/coordinator.py:329-357 | nothing is streamed unless the served database digest is the masked one |
| `CopyCoordinator.DataArtifactCopyCoordinator.Compensate` | src/odoo_forge/data_artifacts/coordinator.py:405-439 | CLEANUP_REQUIRED is reached first, then the staged reference is discarded if the scope accepts it |
| `CopyCoordinator.DataArtifactCopyCoordinator.Run` | src/odoo_forge/data_artifacts/coordinator.py:209-403 | for every fault schedule and any persistence: SUCCEEDED iff it returns, CLEANUP_REQUIRED iff it raises; the target receives exactly the payload (the mask's output, or the raw dump under a valid grant) if it returns, and a prefix of it or nothing if it raises; without faults it returns; and all of `StorePromises` holds |
| `CopyCoordinator.StreamsOnlyPayload` | src/odoo_forge/data_artifacts/coordinator.py:245-357 | whatever persistence did to the store, what is streamed is the payload, or a prefix of it if the stream broke off |
| `CopyCoordinator.AnonymizationReapsRaw` | src/odoo_forge/data_artifacts/coordinator.py:266-326 | superseding through the shadow leaves of the raw blob exactly what the masked manifest still names |
| `CopyCoordinator.RunReapsRaw` | src/odoo_forge/data_artifacts/coordinator.py:266-439 | after a non-raw run with a digest-changing mask, returning or raising anywhere with unlinks succeeding, the raw blob is gone iff not (returned, retained, and named as the filestore component) |
| `CopyCoordinator.RunStrandsOnlyMasked` | src/odoo_forge/data_artifacts/coordinator.py:266-439 | from a store without orphans, put-and-discard persistence and succeeding unlinks leave at most one blob that no manifest names at the end of any run: the mask's output |
| `CopyCoordinator.RunStrandsMaskedIff` | src/odoo_forge/data_artifacts/coordinator.py:209-439 | the exact case, for every run: the store has an orphan afterwards iff the run captured, masked with rules, its output was new to the store and to the captured manifest, and it raised after staging that output and before superseding the manifest |
| `CopyCoordinator.RaisingPersistenceStrandsMask` | src/odoo_forge/data_artifacts/coordinator.py:266-326 | a concrete run from an empty store, with a persistence that raises, whose output no manifest names afterwards |
| `CopyCoordinator.RetainedFilestoreKeepsRawBlob` | src/odoo_forge/data_artifacts/coordinator.py:360-403 | a concrete faultless retained run that keeps the raw blob, so the exception above is real |
| `CopyCoordinator.RunProtects` | src/odoo_forge/data_artifacts/coordinator.py:209-439 | manifests of other references, and the blobs they name, come through any run unchanged |
| `CopyCoordinator.RunRecordsResiduals` | src/odoo_forge/data_artifacts/coordinator.py:300-400 | what a failing unlink leaves behind after a success is on record as a checkpoint |
| `CopyCoordinator.RunKeepsStorePromises` | src/odoo_forge/data_artifacts/coordinator.py:209-439 | the conjunction of what a run leaves in the store, from any starting store |
| `CopyCoordinator.FaultlessPreparation` | src/odoo_forge/data_artifacts/coordinator.py:245-347 | without faults preparation succeeds and what it leaves passes every delivery check |
| `OwnershipLedger.LocalOwnershipAuthority.ValidateState` | src/odoo_forge_postgres_docker/authority.py:580-630 | one pass with a running generation accepts iff the whole ledger is well formed, numbered and signed |
| `OwnershipLedger.LocalOwnershipAuthority.FindLatest` | src/odoo_forge_postgres_docker/authority.py:415-423 | the backward scan finds the latest record of an operation and name |
| `OwnershipLedger.LocalOwnershipAuthority.LifecycleRecords` | src/odoo_forge_postgres_docker/authority.py:384-390 | the listing agrees with the latest-record function for every pair |
| `OwnershipLedger.LocalOwnershipAuthority.IsHeldByOther` | src/odoo_forge_postgres_docker/authority.py:271-284 | the forward fold over states agrees with the latest-record function: held iff another operation's latest record is not retired |
| `OwnershipLedger.LocalOwnershipAuthority.Reserve` | src/odoo_forge_postgres_docker/authority.py:204-209 | realises the ledger transition, including the write that fails |
| `OwnershipLedger.LocalOwnershipAuthority.Transition` | src/odoo_forge_postgres_docker/authority.py:211-221 | bind, activate and retire: refused unless the latest record is in the expected state with no or the same container id |
| `OwnershipLedger.LocalOwnershipAuthority.RetireAbsent` | src/odoo_forge_postgres_docker/authority.py:223-239 | refused on reserved, a no-op on retired, otherwise one retiring record |
| `OwnershipLedger.LocalOwnershipAuthority.Converge` | src/odoo_forge_postgres_docker/authority.py:241-263 | the up to three writes, resumed from whatever the log holds, for any number of writes that land |
| `OwnershipLedger.LocalOwnershipAuthority.RotateKeys` | src/odoo_forge_postgres_docker/authority.py:293-298 | adds a key, makes it active and writes once |
| `OwnershipLedger.LocalOwnershipAuthority.VerifyEvidence` | src/odoo_forge_postgres_docker/authority.py:328-367 | accepts iff signed, in its window, with an unused nonce, for an active record; then records the nonce |
| `OwnershipLedger.RunStaysReadable` | src/odoo_forge_postgres_docker/authority.py:425-434 | from nothing, after any calls with any writes failing, the next read accepts the file (rotation drawing an unused key id) |
| `OwnershipLedger.RotationStaysValidIff` | src/odoo_forge_postgres_docker/authority.py:293-298 | rotation keeps the ledger readable iff the key id does not displace a different key that signed a record |
| `OwnershipLedger.CustodyIsExclusiveAndForward` | src/odoo_forge_postgres_docker/authority.py:204-284 | over any sequence of calls: at most one operation holds a name, and each history only moves reserved, active, retired with its container id fixed once known |
| `OwnershipLedger.AppendExclusiveIff` | src/odoo_forge_postgres_docker/authority.py:425-434 | an append keeps custody exclusive iff it retires or nobody else holds the name |
| `OwnershipLedger.AppendForwardOnlyIff` | src/odoo_forge_postgres_docker/authority.py:400-434 | an append keeps the history moving forward iff it follows the latest record |
| `OwnershipLedger.ReserveKeepsCustodyIff` | src/odoo_forge_postgres_docker/authority.py:204-209 | `reserve`, which does not look at other holders, is safe iff the name is free and the operation fresh |
| `OwnershipLedger.ConvergeIsResumable` | src/odoo_forge_postgres_docker/authority.py:241-263 | after any number of landed writes a rerun ends in exactly the state of an undisturbed run and further reruns append nothing, except iff the first write of a brand-new authority never landed |
| `OwnershipLedger.ConvergeSurvivesOtherCalls` | src/odoo_forge_postgres_docker/authority.py:241-284 | any calls on other names, key rotations and evidence checks may land between the crash and the rerun: the rerun still completes, the name ends active for its operation, and further reruns append nothing |
| `OwnershipLedger.InterruptedConvergeKeepsName` | src/odoo_forge_postgres_docker/authority.py:241-284 | after at least one landed write every other operation converging the name is refused and writes nothing |
| `OwnershipLedger.NoncesAreAcceptedOnce` | src/odoo_forge_postgres_docker/authority.py:328-367 | over any run, with writes failing and keys rotated, the used nonces are exactly the accepted ones and no nonce is accepted twice |
| `OwnershipLedger.IssuedEvidenceIsAcceptedOnce` | src/odoo_forge_postgres_docker/authority.py:300-367 | issued evidence for an active record is accepted within its window, also after a rotation, and only once |
| `OwnershipLedger.AcceptedIsCurrentIff` | src/odoo_forge_postgres_docker/authority.py:297-361 | over any run with safe reserves, accepted evidence is backed by an active record somewhere in the log, and its container is active now iff one of those records has not been retired since |
| `OwnershipLedger.RetiringKeepsEvidence` | src/odoo_forge_postgres_docker/authority.py:214-361 | retiring the one active record of a container leaves evidence for it acceptable |
| `OwnershipLedger.RetiredEvidenceIsAccepted` | src/odoo_forge_postgres_docker/authority.py:241-361 | from nothing: after `converge` and `retire` evidence of the retired container is still accepted |
| `Registration.FakeInstanceRegistry.Register` | src/odoo_forge_instances_postgres/fakes.py:55-71 | keeps its operation index consistent and realises the sequential `register` |
| `Registration.RegisterThenGet` | src/odoo_forge_instances_postgres/fakes.py:36-71 | a record that carries a receipt is answered as registered iff `get` then reads back that very record; a conflict stores nothing and `get` does not read it |
| `Registration.LookupAgreesIff` | src/odoo_forge_instances_postgres/adapter.py:243-257 | on one table the SQL lookup answers as the sequential registry iff the pointer is not held by a row without a receipt |
| `Registration.LegacyRowIsAnsweredDifferently` | src/odoo_forge_instances_postgres/adapter.py:243-257 | a concrete receipt-less row that is answered differently |
| `Registration.StepKeepsInv` | src/odoo_forge_instances_postgres/adapter.py:164-241 | every lookup, insert, skip, commit, rollback and re-lookup of any client keeps the linearization invariant, whatever rows the table began with |
| `Registration.RegisterIsLinearizable` | src/odoo_forge_instances_postgres/adapter.py:215-257 | every interleaving of any number of clients on any table with unique pointers and operation ids is equivalent to a serial order in which each returned client got the sequential answer; committed rows never change |
| `Registration.SerialOrderIsRealTime` | src/odoo_forge_instances_postgres/adapter.py:215-257 | a client that returned before another one took effect comes before it in the serial order |
| `Registration.LegacyPointerIsNeverAnswered` | src/odoo_forge_instances_postgres/adapter.py:243-257 | a client whose pointer is held by a row without a receipt is never answered and never lands a row, in any interleaving |
| `Registration.UndisturbedClientIsAnsweredIff` | src/odoo_forge_instances_postgres/adapter.py:215-257 | a client that looks, inserts and commits undisturbed is answered iff its pointer is not held by a row without a receipt |
| `Registration.LostCommitIsAnsweredByRetry` | src/odoo_forge/control_plane/authority.py:77-84 | a commit that landed but reported an error is answered by the retry with that very row, whatever others do meanwhile |
| `LifecycleRecovery.LifecycleService.RevalidateZombie` | src/odoo_forge/resource_lifecycle/service.py:266-282 | passes only if the last registry and provider answers of the run still confirm the journaled history |
| `LifecycleRecovery.LifecycleService.Revalidate` | src/odoo_forge/resource_lifecycle/service.py:310-327 | passes only if fresh answers show the same single observation and the expected record |
| `LifecycleRecovery.LifecycleService.Finish` | src/odoo_forge/resource_lifecycle/service.py:338-351 | a finished key is journaled exactly once with its outcome, and with a residual unless the code is one of the four clean ones; otherwise the recovery raised |
| `LifecycleRecovery.LifecycleService.RecoverZombie` | src/odoo_forge/resource_lifecycle/service.py:126-179 | quarantine, journal, revalidate, delete, clean up: every effect justified by the trace before it |
| `LifecycleRecovery.LifecycleService.RecoverOwned` | src/odoo_forge/resource_lifecycle/service.py:204-245 | the owned branch: lineage, eligibility, quarantine or reconcile, each effect justified |
| `LifecycleRecovery.LifecycleService.Recover` | src/odoo_forge/resource_lifecycle/service.py:113-245 | every branch appends only justified effects, journals once per key and once per action, and at most one delete; without approval it only journals |
| `LifecycleRecovery.LifecycleService.RecordFromHistory` | src/odoo_forge/resource_lifecycle/service.py:247-264 | a record is taken from a history only if it matches it; otherwise a contradiction |
| `LifecycleRecovery.LifecycleService.Process` | src/odoo_forge/resource_lifecycle/service.py:79-111 | duplicates and contradictions go to a human and delete nothing |
| `LifecycleRecovery.LifecycleService.Run` | src/odoo_forge/resource_lifecycle/service.py:59-111 | a completed run grows the journal by one, plus one per key, plus one per action performed; every effect of any run, also of one that raised, is justified by evidence of that run |
| `LifecycleRecovery.LifecycleService.RunMany` | src/odoo_forge/resource_lifecycle/service.py:59-351 | over any sequence of runs with arbitrary answers, gateway calls and journal appends that raise included: per identifier at most two deletes are attempted, the second only if the first raised or the append of its event lost it, so two deletes return only in the latter case; and every quarantine, adopt, reconcile and delete is justified by its own run's approved context and by what that same run read before it, for a delete a quarantine of the same ref, its journaled history and a passed revalidation |
| `LifecycleRecovery.KeyKeepsRecorded` | src/odoo_forge/resource_lifecycle/service.py:126-179 | working off a key keeps, over the whole trace: at most two attempts per identifier, each of which left a history, and after a delete that returned either two histories or a lost event right after it |
| `LifecycleRecovery.MayRepeatIff` | src/odoo_forge/resource_lifecycle/service.py:79-245 | after a recovery whose delete returned, the journal leaves room for another attempt iff the event of the delete was lost and the identifier had no history before |
| `LifecycleRecovery.TwiceDeletedWasLost` | src/odoo_forge/resource_lifecycle/service.py:126-245 | two deletes of one identifier returned only if the event of one of them was lost right after it |
| `BackendCustody.BackendOwnershipCustody.Record` | src/odoo_forge_docker/ownership.py:20-31 | the file then holds the abstract custody map with the new, idle entry |
| `BackendCustody.BackendOwnershipCustody.Remove` | src/odoo_forge_docker/ownership.py:33-41 | the entry is gone, and a project without entries is dropped |
| `BackendCustody.BackendOwnershipCustody.Consume` | src/odoo_forge_docker/ownership.py:43-61 | answers the recorded proof and marks it in progress |
| `BackendCustody.BackendOwnershipCustody.Complete` | src/odoo_forge_docker/ownership.py:63-82 | removes the entry iff it is in progress with this very proof |
| `BackendCustody.BackendOwnershipCustody.Load` | src/odoo_forge_docker/ownership.py:108-121 | answers the recorded proof, if any |
| `BackendCustody.StaleCompleteKeepsRerecorded` | src/odoo_forge_docker/ownership.py:20-82 | a stale `complete` never removes an entry re-recorded after its `consume`, whatever updates come between, unless it is consumed again |
| `BackendCustody.StaleCompleteRemovesIff` | src/odoo_forge_docker/ownership.py:43-82 | it does remove it iff it was consumed again and the proofs are the very same |
| `DockerBackend.DockerBackendProvider.EnsureNetwork` | src/odoo_forge_docker/provider.py:539-543 | exactly a network that was missing is created and entered in the ledger |
| `DockerBackend.DockerBackendProvider.EnsureVolume` | src/odoo_forge_docker/provider.py:545-556 | a missing volume is created with its token and entered before its label is verified |
| `DockerBackend.DockerBackendProvider.RunBootstrap` | src/odoo_forge_docker/provider.py:566-615 | the bootstrap container enters the ledger iff its id file could be read |
| `DockerBackend.DockerBackendProvider.Rollback` | src/odoo_forge_docker/provider.py:654-699 | nothing outside the ledger is touched; what is left of the ledger is named; only ledger entries are named; without failing steps nothing is left |
| `DockerBackend.DockerBackendProvider.RollbackDatabase` | src/odoo_forge_docker/provider.py:701-725 | clean iff the provider reclaimed its whole receipt and reported no residual |
| `DockerBackend.DockerBackendProvider.Build` | src/odoo_forge_docker/provider.py:263-289 | the ledger accounts for exactly what is new, save for an unidentified bootstrap container |
| `DockerBackend.DockerBackendProvider.Run` | src/odoo_forge_docker/provider.py:229-322 | on any failure everything that existed is untouched, custody is unchanged, and every new resource still there is named in the residuals iff it is not the leaked bootstrap container; residuals never name what existed before; clean teardown leaves none; on success exactly the planned and provisioned resources are new and custody holds the narrowed receipt with the Odoo volume's token |
| `DockerBackend.UnidentifiedBootstrapStays` | src/odoo_forge_docker/provider.py:566-615 | a concrete run that leaves a bootstrap container no residual names |
| `DockerBackend.Unwound` | src/odoo_forge_docker/provider.py:654-699 | rolling back an accounted-for ledger leaves the old world, what is named, and the leak |
| `DockerBackend.DockerBackendProvider.RemoveRuntime` | src/odoo_forge_docker/provider.py:380-433 | only runtime resources can go; each outcome is truthful; all three are removed or absent iff each was absent or owned and its removal did not fail |
| `DockerBackend.DockerBackendProvider.ReclaimProven` | src/odoo_forge_docker/provider.py:475-514 | removes exactly what the proof covers; the proof is due for dropping iff cleanup was clean and both volumes are gone |
| `DockerBackend.DockerBackendProvider.Reclaim` | src/odoo_forge_docker/provider.py:465-514 | callable only once the runtime is gone; with custody updates of others in between, `complete` is called iff cleanup was clean and both volumes are gone |
| `DockerBackend.DockerBackendProvider.Destroy` | src/odoo_forge_docker/provider.py:356-378 | unless the whole runtime was removed or absent, nothing but this instance's runtime can go and custody is unchanged; otherwise only what the recorded proof covers goes; all five outcomes are truthful |
| `DockerBackend.DockerBackendProvider.RunThenDestroy` | src/odoo_forge_docker/provider.py:229-514 | round trip: destroying what a successful run brought up restores the world exactly and drops the recorded proof |
| `Manifests.Compose` | src/odoo_forge/manifest/composition.py:32-97 | accepts iff no layer is named core, no published layer needs a missing edition, override targets are unique and each names a repository of a git layer |
| `Manifests.CheckOverrides` | src/odoo_forge/manifest/composition.py:67-97 | the running target set finds every duplicate and every dangling override |
| `Manifests.OverridesAgree` | src/odoo_forge/manifest/locking.py:35-41 | the last-wins override dictionary of the lock and the first match of the unlock plan agree when targets are unique |
| `Manifests.BuildLock` | src/odoo_forge/manifest/locking.py:24-104 | succeeds iff the manifest composes and every effective repository and artifact resolves; then the lock names exactly the effective repositories in order, each pinned to its resolved commit |
| `Projection.PlanProjection` | src/odoo_forge/manifest/projection.py:176-219 | the plan is the step list of the lock, or none at all when a locked layer is orphaned |
| `Projection.StepIsProjected` | src/odoo_forge/manifest/projection.py:200-217 | every step comes from a locked repository |
| `Projection.ProjectedIsStep` | src/odoo_forge/manifest/projection.py:200-217 | every locked repository has a step, under the root of its layer |
| `Projection.StepsAreSeparate` | src/odoo_forge/manifest/projection.py:200-217 | for distinct layer names and directory names no two steps share a directory |
| `Projection.UnlockSourceIsPlanned` | src/odoo_forge/manifest/projection.py:222-276 | `plan_unlock` of any declared repository promotes from the very directory that `plan_projection` of the built lock checks out, overrides included |
| `Projection.MatchRootAndLayer` | src/odoo_forge/manifest/projection.py:497-515 | the table of roots, searched in any order, yields the one root a path lies under and its layer |
| `Projection.RootIsUnique` | src/odoo_forge/manifest/projection.py:51-77 | no root lies under another |
| `Projection.TargetMatches` | src/odoo_forge/manifest/projection.py:497-515 | every projected path is recognised as its own root and layer again |
| `MaterializedStates.MaterializeState` | src/odoo_forge/manifest/projection.py:291-337 | fails iff some path is under no root; otherwise the dictionary built from read-only checkouts first and worktrees last |
| `MaterializedStates.StateHolds` | src/odoo_forge/manifest/projection.py:291-337 | the state holds the commit of a worktree if one is scanned, else of a read-only checkout, else nothing |
| `MaterializedStates.LockStateDrift` | src/odoo_forge/manifest/drift.py:74-110 | the nested loops produce the drift list of lock and state, in lock order |
| `MaterializedStates.DetectDrift` | src/odoo_forge/manifest/drift.py:46-71 | manifest drift iff the lock is missing or carries another hash; lock drift independently of it |
| `MaterializedStates.CleanIff` | src/odoo_forge/manifest/drift.py:74-110 | no drift iff every locked layer is present and every locked repository is held at its commit |
| `MaterializedStates.AgreementOnlyLacks` | src/odoo_forge/manifest/drift.py:74-110 | a state that never contradicts the lock drifts only by what is not materialized |
| `MountView.ValidateLockStructure` | src/odoo_forge/manifest/projection.py:435-472 | accepts iff the manifest composes and the lock names exactly its effective repositories and artifacts |
| `MountView.PlanLocked` | src/odoo_forge/manifest/projection.py:357-371 | passes iff the lock's hash and structure match the manifest and no two repositories share layer and directory |
| `MountView.FileEvidence` | src/odoo_forge/manifest/projection.py:372-400 | passes iff, as a multiset, every scanned repository is in place and no repository has two of a kind |
| `MountView.ValidateMaterializedState` | src/odoo_forge/manifest/projection.py:475-494 | passes iff the state holds each locked repository once, at its commit, and nothing else |
| `MountView.BuildMountPlanningView` | src/odoo_forge/manifest/projection.py:340-432 | acceptance and result as functions of the scan's multiset, in closed form |
| `MountView.PermutedScansAgree` | src/odoo_forge/manifest/projection.py:340-432 | permuted scans are accepted alike with equal results |
| `MountView.ViewIsBijective` | src/odoo_forge/manifest/projection.py:410-427 | mounts and locked repositories are in bijection and container paths are pairwise distinct |
| `MountView.MountsAreBacked` | src/odoo_forge/manifest/projection.py:401-427 | every mount's source was scanned at the locked commit, and it is writable iff a worktree exists |
| `MountView.ClosingCheckNeverRejects` | src/odoo_forge/manifest/projection.py:429-431 | the closing state check never rejects the state materialized from the same scan |
| `MountView.SortIdsSorts` | src/odoo_forge/manifest/projection.py:408-408 | sorting identities yields an ordered permutation |
| `Workspaces.GitWorkspaceProvider.CheckOut` | src/odoo_forge_workspace/provider.py:53-88 | a destination that is no checkout is refused; a linked worktree or dirty checkout is never overwritten; the wanted commit is a no-op; otherwise a clone replaces the directory or nothing changes |
| `Workspaces.GitWorkspaceProvider.ProjectWorkspace` | src/odoo_forge/manifest/projection.py:279-288 | the steps in order up to the first failure |
| `Workspaces.GitWorkspaceProvider.Scan` | src/odoo_forge_workspace/provider.py:90-127 | every checkout under a mount root that is not inside another one there is found once, and no other |
| `Workspaces.GitWorkspaceProvider.Promote` | src/odoo_forge_workspace/provider.py:127-144 | a linked worktree of the source's commit appears at the destination; the source stays; an existing destination is refused |
| `Pipeline.BuiltLockIsSound` | src/odoo_forge/manifest/locking.py:24-57 | a lock built from a well-named manifest passes every check the pipeline makes of it |
| `Pipeline.ProjectionKeepsCoherence` | src/odoo_forge/manifest/projection.py:279-288 | after any prefix of a projection with any clones failing, only locked repositories lie on disk, each in place at its commit; without a failure all of them do |
| `Pipeline.CoherentOnlyLacks` | src/odoo_forge/manifest/drift.py:74-110 | whatever part has been projected, the only drift is `not_materialized` |
| `Pipeline.CoherentIsCleanIff` | src/odoo_forge/manifest/drift.py:74-110 | drift is clean iff everything locked is on disk and no locked layer is without repositories |
| `Pipeline.CoherentIsAcceptedIff` | src/odoo_forge/manifest/projection.py:340-432 | the mount view of a scan is accepted iff everything locked is on disk, read-only or promoted |
| `Pipeline.ProjectCommand` | src/odoo_forge_cli/commands/manifest.py:332-363 | on a coherent workspace the preflight never blocks, the result is coherent however many clones fail, success means completeness, and without failures it succeeds iff no locked layer is empty |
| `Pipeline.LockProjectRerun` | src/odoo_forge_cli/commands/manifest.py:332-363 | from an empty workspace: lock, interrupted projection (only `not_materialized` drift), rerun (clean), accepted mounts |
| `Pipeline.Unlock` | src/odoo_forge_cli/commands/manifest.py:615-619 | promotes from the planned source to the worktree path, or changes nothing |
| `Pipeline.PromotionMovesOneMount` | src/odoo_forge/manifest/projection.py:222-276 | after a promotion the view is still accepted and only that repository's mount changes: source moved, writable, same container path |
| `Pipeline.UnlockMovesOneMount` | src/odoo_forge_cli/commands/manifest.py:615-619 | on a complete workspace `unlock` of a declared repository, overrides included, goes through iff its worktree is not there yet, and then exactly that repository's mount moves and becomes writable; otherwise nothing changes |
| `InstanceNames.SanitizeName` | src/odoo_forge/backend/status.py:55-74 | the character loop yields the token of the name |
| `InstanceNames.TokensAreValid` | src/odoo_forge/backend/status.py:55-74 | the token is always valid, is the name itself iff the name is valid, and is its own token |
| `InstanceNames.ReferencesAgree` | src/odoo_forge/control_plane/reconcile.py:112-128 | plan and manifest derive the same reference; the reconciler's equals it iff the record's project and instance are valid tokens |
| `InstanceNames.RecordedReferenceIsReconciled` | src/odoo_forge/control_plane/reconcile.py:112-128 | a record written from a derived reference is reconciled to that reference |
| `InstanceNames.PlannedBackendIsDestroyable` | src/odoo_forge/backend/plan.py:104-176 | a planned backend satisfies what the run-then-destroy round trip asks of plan and reference |
| `InstanceNames.ReferenceIsSafeIff` | src/odoo_forge_docker/provider.py:442-445 | a derived reference passes the identifier check of `destroy` iff its two tokens have at most 111 characters together |
| `InstanceNames.NetworksCanCoincide` | src/odoo_forge/backend/status.py:77-88 | two instances of different projects can be given the same network name |
| `InstanceNames.NetworksCanCoincideIff` | src/odoo_forge/backend/status.py:77-88 | two different valid projects can be given one network name by some valid instances iff one project is the other followed by a dash and a valid token |
| `InstanceNames.SameNetworkIff` | src/odoo_forge/backend/status.py:77-88 | two instances share a network name iff they are the same, or the longer project is the shorter one, a dash and a valid token that starts the other's instance name |
| `InstanceNames.UndashedProjectsKeepApart` | src/odoo_forge/backend/status.py:77-88 | in particular, for projects without a dash and any instance names, network names are equal iff project and instance are |

## Left out

- Command-line options, prompts, presentation, web routes and templates: wiring.
- Subprocess, SSH, file modes, fsync, temporary files and symlink checks: only the atomic success or failure of a step is kept.
- `src/odoo_forge_docker/vps` and `src/odoo_forge/remote_deployment.py`: they rest on a durable operation store that exists only as an interface.
- Masking SQL, introspection and scratch containers: the mask is an arbitrary function on bytes.
- Cryptography, base64 and JSON encodings, database migrations: library code.
- Credential injection, redaction, host allow-lists, readiness diagnostics: text handling that decides no state.
- `_repo_name`: an arbitrary function from urls to directory names; only its values within one layer are assumed distinct.
- `ordered_addons_roots` and `mount_priority`: an ordering of roots that none of the modelled decisions reads.
- The in-memory registry's `store` and `list`, and the SQL `store`, `get` and `list`: `get` does not select receipt columns, so no claim rests on it.
- The wording of errors: which check fails is kept, the message is not; redacted evidence is reduced to the fact that it was accepted or rejected.
- The order in which conflicts between several failing checks of one mount view are met: acceptance and result are exact, the error kind is not specified.
- A Docker probe that fails for another reason than an unreachable daemon, which the source reads as absence: probes raise or answer truthfully here.
- The label contract between the backend plan and the database provider: the provider's labels are an argument, and only the round trip asks for them to be the plan's.
- `write` on the ownership ledger and `recover`: administrative entry points outside the modelled transitions.
- MountView.BuildMountPlanningView: the container table is always the one built from `/mnt` and the host table the one built from the manifest and a base, because every caller passes these.
- Pipeline.ProjectCommand: leaves out the credential preflight before it and the module dependency check after it, because they change neither workspace nor lock.
- LifecycleRecovery.LifecycleService.Run: aborts on a raising registry, gateway or journal call are modelled as the end of the run; the exception itself is not.
