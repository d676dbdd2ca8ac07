/**
 The Docker backend: `run` as a transaction with a created-only ledger and
 reverse rollback, and `destroy` gated by runtime removal, labels and custody.
 Each Docker call succeeds or fails atomically; the fault arguments say which
 calls fail.  The database provider is an abstract port.
 */
module DockerBackend {
  import opened Wrappers
  import opened BackendCustody

  /** The labels the backend reads back: the creation token, or the owning instance and role. */
  datatype Labels = Labels(token: Option<string>, project: string, instance: string, role: string)

  type World = map<Resource, Labels>

  function Network(name: string): Resource { Resource(NetworkKind, name) }

  function Volume(name: string): Resource { Resource(VolumeKind, name) }

  function Container(name: string): Resource { Resource(ContainerKind, name) }

  datatype BackendError =
    | NotConfigured | CredentialFailure | DockerUnavailable | InstanceExists | ImageFailure
    | ContainerRun | ProvisionFailure | NotHealthy | CustodyFailure | InvalidIdentifier

  // ------------------------------------------------------------------------
  // run
  // ------------------------------------------------------------------------

  datatype Plan = Plan(
    key: Key, network: string, volumes: seq<string>, pgdata: string,
    postgres: string, odoo: string, odooVolume: Option<string>, hasCredentials: bool)
  {
    function Label(role: string): Labels { Labels(None, key.project, key.instance, role) }

    /** The volumes the backend itself makes sure of; the data volume belongs to the postgres leg. */
    ghost function Volumes(): set<Resource> { set v | v in volumes && v != pgdata :: Volume(v) }

    predicate Exists(w: World) {
      Container(postgres) in w || Container(odoo) in w || Container(odoo + "-bootstrap") in w
    }
  }

  /** The delegated postgres leg: what it created, and how its cleanup will answer. */
  datatype Provisioned = Provisioned(identifier: string, receipt: Receipt, freshData: bool)

  /**
   How the provider's cleanup goes: what it fails to remove, what it reports on
   top of that, and whether it raises instead of reporting.
   */
  datatype CleanupAnswer = CleanupAnswer(raised: bool, kept: set<Resource>, reported: set<Resource>) {
    function Removes(receipt: Receipt): set<Resource> { receipt.owned - kept }
    function Residuals(receipt: Receipt): set<Resource> { receipt.owned * kept + reported }
    predicate Clean(receipt: Receipt) { !raised && Residuals(receipt) == {} }
  }

  /**
   The bootstrap container: it may never start, it may run and be identified by
   its id file, with or without success, or it may be left without one.
   */
  datatype Bootstrap = NeverStarted | Ran(id: string, success: bool) | Unidentified(id: string)

  datatype RunFaults = RunFaults(
    credentials: bool, existence: bool, image: bool, networkInspect: bool, network: bool,
    volumeInspect: set<nat>, volume: set<nat>, volumeLabel: set<nat>,
    provision: bool, bootstrap: Bootstrap, bootstrapRemove: bool, odoo: bool, healthy: bool, custody: bool,
    teardown: set<nat>, cleanup: CleanupAnswer)

  datatype CreatedResource =
    | CreatedNetwork(name: string)
    | CreatedVolume(name: string, token: string)
    | CreatedContainer(id: string)
    | CreatedDatabase(identifier: string)

  /** A residual reported by rollback, as `kind=name`. */
  datatype Residual = NamedResource(resource: Resource) | NamedDatabase(identifier: string)

  function NameOf(c: CreatedResource): Residual {
    match c
    case CreatedNetwork(n) => NamedResource(Network(n))
    case CreatedVolume(n, _) => NamedResource(Volume(n))
    case CreatedContainer(i) => NamedResource(Container(i))
    case CreatedDatabase(i) => NamedDatabase(i)
  }

  /** The resources a ledger entry stands for; the database marker stands for its whole receipt. */
  function ResourcesOf(c: CreatedResource, database: Option<Provisioned>): set<Resource> {
    match c
    case CreatedNetwork(n) => {Network(n)}
    case CreatedVolume(n, _) => {Volume(n)}
    case CreatedContainer(i) => {Container(i)}
    case CreatedDatabase(_) => if database.Some? then database.value.receipt.owned else {}
  }

  ghost function LedgerResources(created: seq<CreatedResource>, database: Option<Provisioned>): set<Resource> {
    set c, r | c in created && r in ResourcesOf(c, database) :: r
  }

  /** Nothing that was there before is gone or relabelled. */
  ghost predicate Untouched(before: World, after: World) {
    forall r :: r in before ==> r in after && after[r] == before[r]
  }

  /** `r` is covered by a reported residual. */
  ghost predicate Named(residuals: seq<Residual>, database: Option<Provisioned>, r: Resource) {
    NamedResource(r) in residuals
    || (database.Some? && r in database.value.receipt.owned && NamedDatabase(database.value.identifier) in residuals)
  }

  function WithoutAll(w: World, rs: set<Resource>): World {
    map r | r in w && r !in rs :: w[r]
  }

  // ------------------------------------------------------------------------
  // destroy
  // ------------------------------------------------------------------------

  datatype InstanceRef = InstanceRef(key: Key, network: string, postgres: string, odoo: string)

  datatype DestroyOutcome = Removed | AlreadyAbsent | Protected | FailedOutcome

  /** `ownership` numbers the label inspections that raise: postgres 0, odoo 1, network 2. */
  datatype DestroyFaults = DestroyFaults(
    invalid: bool, inspect: bool, reinspect: bool, ownership: set<nat>,
    postgres: bool, odoo: bool, network: bool,
    consume: bool, pgdataInspect: bool, cleanup: CleanupAnswer, filestoreInspect: bool, filestore: bool, complete: bool)

  function Pgdata(ref: InstanceRef): Resource { Volume(ref.network + "-pgdata") }

  function Filestore(ref: InstanceRef): Resource { Volume(ref.network + "-filestore") }

  function RuntimeAt(ref: InstanceRef, i: nat): Resource {
    if i == 0 then Container(ref.postgres) else if i == 1 then Container(ref.odoo) else Network(ref.network)
  }

  /** The managed labels name this instance, and for a container its role. */
  predicate Owned(ref: InstanceRef, w: World, i: nat) {
    var r := RuntimeAt(ref, i);
    && r in w && w[r].project == ref.key.project && w[r].instance == ref.key.instance
    && (i == 0 ==> w[r].role == "postgres") && (i == 1 ==> w[r].role == "odoo")
  }

  predicate Removable(ref: InstanceRef, f: DestroyFaults, w: World, i: nat) {
    RuntimeAt(ref, i) in w ==>
      i !in f.ownership && Owned(ref, w, i) && !(if i == 0 then f.postgres else if i == 1 then f.odoo else f.network)
  }

  predicate RuntimeRemovable(ref: InstanceRef, f: DestroyFaults, w: World) {
    !f.reinspect && forall i :: 0 <= i < 3 ==> Removable(ref, f, w, i)
  }

  function Unconfirmed(present: bool): DestroyOutcome { if present then FailedOutcome else AlreadyAbsent }

  predicate Settled(outcome: DestroyOutcome) { outcome == Removed || outcome == AlreadyAbsent }

  /** An outcome never claims more than happened. */
  predicate Truthful(r: Resource, outcome: DestroyOutcome, before: World, after: World) {
    && (Settled(outcome) ==> r !in after)
    && (outcome == Removed ==> r in before)
    && (outcome == Protected ==> r in before && r in after && after[r] == before[r])
  }

  predicate DataTruthful(ref: InstanceRef, outcomes: seq<DestroyOutcome>, before: World, after: World) {
    && |outcomes| == 2
    && Truthful(Pgdata(ref), outcomes[0], before, after) && Truthful(Filestore(ref), outcomes[1], before, after)
  }

  /** The five resources that a result reports on, in order. */
  function ResourceAt(ref: InstanceRef, i: nat): Resource {
    if i < 3 then RuntimeAt(ref, i) else if i == 3 then Pgdata(ref) else Filestore(ref)
  }

  predicate Kept(r: Resource, before: World, after: World) {
    (r in before <==> r in after) && (r in before ==> after[r] == before[r])
  }

  lemma RuntimeDistinct(ref: InstanceRef, i: nat)
    requires ref.postgres != ref.odoo && i < 3
    ensures RuntimeAt(ref, i) in Runtime(ref)
    ensures forall j :: 0 <= j < 3 && j != i ==> RuntimeAt(ref, j) != RuntimeAt(ref, i)
  {
  }

  predicate RuntimeTruthful(ref: InstanceRef, outcomes: seq<DestroyOutcome>, before: World, after: World) {
    |outcomes| == 3 && forall i :: 0 <= i < 3 ==> Truthful(RuntimeAt(ref, i), outcomes[i], before, after)
  }

  predicate ReportTruthful(ref: InstanceRef, outcomes: seq<DestroyOutcome>, before: World, after: World) {
    |outcomes| == 5 && forall i :: 0 <= i < 5 ==> Truthful(ResourceAt(ref, i), outcomes[i], before, after)
  }

  lemma RuntimeIsGone(ref: InstanceRef, outcomes: seq<DestroyOutcome>, before: World, after: World)
    requires RuntimeTruthful(ref, outcomes, before, after) && Surrounds(ref, before, after)
    requires forall i :: 0 <= i < 3 ==> Settled(outcomes[i])
    ensures RuntimeGone(ref, after) && after == WithoutAll(before, Runtime(ref))
  {
    assert RuntimeAt(ref, 0) !in after && RuntimeAt(ref, 1) !in after && RuntimeAt(ref, 2) !in after;
  }

  /** The runtime's report still holds once the data has been dealt with. */
  lemma ReportIsTruthful(
    ref: InstanceRef, runtime: seq<DestroyOutcome>, data: seq<DestroyOutcome>, w0: World, w1: World, w2: World)
    requires RuntimeTruthful(ref, runtime, w0, w1) && DataTruthful(ref, data, w1, w2)
    requires Surrounds(ref, w0, w1) && forall r :: r in w2 ==> r in w1 && w2[r] == w1[r]
    requires Protected in runtime ==> w2 == w1
    ensures ReportTruthful(ref, runtime + data, w0, w2)
  {
    forall i | 0 <= i < 5 ensures Truthful(ResourceAt(ref, i), (runtime + data)[i], w0, w2) {
      if i < 3 {
        assert Truthful(RuntimeAt(ref, i), runtime[i], w0, w1) && runtime[i] in runtime;
      } else {
        assert ResourceAt(ref, i) in w1 ==> ResourceAt(ref, i) in w0;
      }
    }
  }

  /** Whether a call gets as far as touching data. */
  ghost predicate Reclaims(b: DockerBackendProvider, ref: InstanceRef, f: DestroyFaults, c: Custody, w: World) {
    !f.invalid && !f.inspect && RuntimeRemovable(ref, f, w) && Provable(b, ref, f, c)
  }

  /** Only the runtime resources may be gone. */
  ghost predicate Surrounds(ref: InstanceRef, before: World, after: World) {
    && (forall r :: r in after ==> r in before && after[r] == before[r])
    && (forall r :: r in before && r !in Runtime(ref) ==> r in after)
  }

  /** Only what the proof covers may be gone: the receipt, and the volume that carries its token. */
  ghost predicate Covered(ref: InstanceRef, proof: Proof, before: World, after: World) {
    && (forall r :: r in after ==> r in before && after[r] == before[r])
    && (forall r :: r in before && r !in after ==>
          r in proof.receipt.owned
          || (r == Filestore(ref) && Carries(before, r, proof.token)))
  }

  predicate Carries(w: World, r: Resource, token: Option<string>) {
    r in w && Tokened(w[r]) && w[r].token == token
  }

  /** All that a reclaim without inspection faults takes away. */
  ghost function Reclaimable(ref: InstanceRef, f: DestroyFaults, proof: Proof, w: World): set<Resource> {
    f.cleanup.Removes(proof.receipt)
    + if Carries(w, Filestore(ref), proof.token) && !f.filestore then {Filestore(ref)} else {}
  }

  ghost predicate Provable(b: DockerBackendProvider, ref: InstanceRef, f: DestroyFaults, c: Custody) {
    b.hasDatabaseProvider && b.custody != null && !f.consume && ref.key in c
  }

  predicate DataGone(ref: InstanceRef, w: World) {
    Pgdata(ref) !in w && Filestore(ref) !in w
  }

  /** The proof is dropped exactly when both volumes are gone and the cleanup left nothing behind. */
  ghost function CustodyAfterReclaim(
    ref: InstanceRef, f: DestroyFaults, env: seq<Update>, c: Custody, returned: bool, w: World): Custody
    requires ref.key in c
  {
    var proof := c[ref.key].proof;
    var t := ApplyAll(Apply(c, ConsumeProof(ref.key)), env);
    if returned && f.cleanup.Clean(proof.receipt) && DataGone(ref, w)
    then Apply(t, CompleteProof(ref.key, proof)) else t
  }

  ghost function InstanceResources(ref: InstanceRef): set<Resource> {
    Runtime(ref) + {Pgdata(ref), Filestore(ref)}
  }

  /** The plan, the provisioned leg and the reference speak of the same instance. */
  ghost predicate PlannedFor(ref: InstanceRef, plan: Plan, p: Provisioned) {
    && ref == InstanceRef(plan.key, plan.network, plan.postgres, plan.odoo) && plan.postgres != plan.odoo
    && Volume(plan.pgdata) == Pgdata(ref) && plan.odooVolume.Some? && Volume(plan.odooVolume.value) == Filestore(ref)
    && plan.volumes == [plan.pgdata, plan.odooVolume.value]
    && p.receipt.owned == {Pgdata(ref), Container(ref.postgres)}
  }

  predicate Faultless(f: DestroyFaults) {
    && !f.invalid && !f.inspect && !f.reinspect && f.ownership == {} && !f.postgres && !f.odoo && !f.network
    && !f.consume && !f.pgdataInspect && !f.filestoreInspect && !f.filestore && !f.complete
    && f.cleanup == CleanupAnswer(false, {}, {})
  }

  /** What a run leaves up carries every label and token that `Destroy` asks for. */
  lemma RunningIsDestroyable(ref: InstanceRef, plan: Plan, p: Provisioned, w0: World, w1: World, c: Custody)
    requires PlannedFor(ref, plan, p) && forall r :: r in InstanceResources(ref) ==> r !in w0
    requires Untouched(w0, w1) && Running(w0, w1, plan, p, plan.Label("postgres"))
    ensures forall i :: 0 <= i < 3 ==> Owned(ref, w1, i)
    ensures w1.Keys == w0.Keys + InstanceResources(ref)
    ensures CustodyAfterRun(c, plan, p, w0, w1)
         == Apply(c, RecordProof(ref.key, Proof(p.receipt, w1[Filestore(ref)].token)))
    ensures Tokened(w1[Filestore(ref)])
  {
    DataVolumesDiffer(ref);
    assert plan.odooVolume.value in plan.volumes;
    assert plan.Volumes() == {Filestore(ref)};
    assert Narrowed(p, PreparedKeys(plan, w0)).owned == p.receipt.owned;
    assert Container(ref.postgres) in p.receipt.owned;
  }

  lemma DestroyedIsGone(
    ref: InstanceRef, plan: Plan, p: Provisioned, g: DestroyFaults, w0: World, w1: World, c: Custody)
    requires PlannedFor(ref, plan, p) && Faultless(g) && forall r :: r in InstanceResources(ref) ==> r !in w0
    requires Untouched(w0, w1) && Running(w0, w1, plan, p, plan.Label("postgres"))
    ensures RuntimeRemovable(ref, g, w1)
    ensures var c1 := CustodyAfterRun(c, plan, p, w0, w1);
      var w2 := WithoutAll(w1, Runtime(ref));
      && ref.key in c1 && WithoutAll(w2, Reclaimable(ref, g, c1[ref.key].proof, w2)) == w0
      && CustodyAfterReclaim(ref, g, [], c1, true, w0) == Without(c, ref.key)
  {
    RunningIsDestroyable(ref, plan, p, w0, w1, c);
    CleanDestroyRestores(ref, p, g, w0, w1);
    assert g.cleanup.Clean(p.receipt);
  }

  /** Runtime, receipt and filestore together are all that was new. */
  lemma CleanDestroyRestores(ref: InstanceRef, p: Provisioned, g: DestroyFaults, w0: World, w1: World)
    requires Faultless(g) && p.receipt.owned == {Pgdata(ref), Container(ref.postgres)}
    requires Untouched(w0, w1) && w1.Keys == w0.Keys + InstanceResources(ref)
    requires forall r :: r in InstanceResources(ref) ==> r !in w0
    requires Tokened(w1[Filestore(ref)])
    ensures var w2 := WithoutAll(w1, Runtime(ref));
      WithoutAll(w2, Reclaimable(ref, g, Proof(p.receipt, w1[Filestore(ref)].token), w2)) == w0
    ensures DataGone(ref, w0)
  {
    DataVolumesDiffer(ref);
    assert g.cleanup.Removes(p.receipt) == p.receipt.owned;
    assert Filestore(ref) in WithoutAll(w1, Runtime(ref));
  }

  lemma DataVolumesDiffer(ref: InstanceRef)
    ensures Pgdata(ref) != Filestore(ref)
  {
    assert (ref.network + "-pgdata")[|ref.network| + 1] == 'p';
    assert (ref.network + "-filestore")[|ref.network| + 1] == 'f';
  }

  function Runtime(ref: InstanceRef): set<Resource> {
    {Container(ref.postgres), Container(ref.odoo), Network(ref.network)}
  }

  predicate RuntimeGone(ref: InstanceRef, w: World) {
    Container(ref.postgres) !in w && Container(ref.odoo) !in w && Network(ref.network) !in w
  }

  class DockerBackendProvider {
    const hasDatabaseProvider: bool
    const custody: BackendOwnershipCustody?
    var world: World

    constructor (hasDatabaseProvider: bool, custody: BackendOwnershipCustody?, world: World)
      ensures this.hasDatabaseProvider == hasDatabaseProvider && this.custody == custody && this.world == world
    {
      this.hasDatabaseProvider, this.custody, this.world := hasDatabaseProvider, custody, world;
    }

    // -- single Docker calls -----------------------------------------------------

    method Create(r: Resource, labels: Labels, fails: bool) returns (ok: bool)
      modifies this`world
      ensures ok <==> !fails && r !in old(world)
      ensures world == if ok then old(world)[r := labels] else old(world)
    {
      if fails || r in world { return false; }
      world := world[r := labels];
      return true;
    }

    method Remove(r: Resource, fails: bool) returns (ok: bool)
      modifies this`world
      ensures ok <==> !fails
      ensures world == if ok then WithoutAll(old(world), {r}) else old(world)
    {
      if fails { return false; }
      world := WithoutAll(world, {r});
      return true;
    }

    // -- rollback ------------------------------------------------------------------

    /** The provider's cleanup reclaims the whole receipt, or the database leg stays a residual. */
    method RollbackDatabase(p: Provisioned, a: CleanupAnswer) returns (clean: bool)
      modifies this`world
      ensures world == WithoutAll(old(world), a.Removes(p.receipt))
      ensures clean <==> a.Clean(p.receipt)
      ensures clean ==> forall r :: r in p.receipt.owned ==> r !in world
    {
      assert forall r :: r in p.receipt.owned && r in a.kept ==> r in a.Residuals(p.receipt);
      world := WithoutAll(world, a.Removes(p.receipt));
      return a.Clean(p.receipt);
    }

    /** One teardown step; a volume goes only while it still carries this run's token. */
    method Unwind(c: CreatedResource, i: nat, database: Option<Provisioned>, teardown: set<nat>, a: CleanupAnswer)
      returns (removed: bool)
      requires c.CreatedDatabase? ==> database.Some?
      modifies this`world
      ensures forall r :: r in world ==> r in old(world) && world[r] == old(world)[r]
      ensures forall r :: r in old(world) && r !in ResourcesOf(c, database) ==> r in world
      ensures removed ==> forall r :: r in ResourcesOf(c, database) ==> r !in world
      ensures (c.CreatedVolume? ==> Stamped(old(world), c)) ==> (removed <==> !StepFails(c, i, database, teardown, a))
      ensures c.CreatedVolume? && Volume(c.name) in old(world) && old(world)[Volume(c.name)].token != Some(c.token) ==>
        !removed
    {
      removed := false;
      match c
      case CreatedDatabase(_) => removed := RollbackDatabase(database.value, a);
      case CreatedContainer(id) => removed := Remove(Container(id), i in teardown);
      case CreatedVolume(name, token) =>
        if Volume(name) in world && world[Volume(name)].token == Some(token) {
          removed := Remove(Volume(name), i in teardown);
        }
      case CreatedNetwork(name) => removed := Remove(Network(name), i in teardown);
    }

    /** Tears down what was created, last first; every step that fails leaves its residual. */
    method Rollback(created: seq<CreatedResource>, database: Option<Provisioned>, teardown: set<nat>, a: CleanupAnswer)
      returns (residuals: seq<Residual>)
      requires forall c :: c in created && c.CreatedDatabase? ==>
        database.Some? && c.identifier == database.value.identifier
      modifies this`world
      ensures forall r :: r in old(world) && r !in LedgerResources(created, database) ==>
        r in world && world[r] == old(world)[r]
      ensures forall r :: r in world ==> r in old(world) && world[r] == old(world)[r]
      ensures forall r :: r in world && r in LedgerResources(created, database) ==> Named(residuals, database, r)
      ensures forall n :: n in residuals ==> exists c :: c in created && NameOf(c) == n
      ensures Unhindered(old(world), created, database, teardown, a) ==> residuals == []
    {
      residuals := [];
      var i := |created|;
      ghost var clean := Unhindered(world, created, database, teardown, a);
      while i > 0
        invariant 0 <= i <= |created|
        invariant RolledBack(old(world), world, LedgerResources(created[i..], database), residuals, database)
        invariant forall n :: n in residuals ==> exists c :: c in created && NameOf(c) == n
        invariant clean ==> residuals == [] && VolumesAhead(world, created, i)
      {
        i := i - 1;
        var c := created[i];
        ghost var before, named := world, residuals;
        assert c in created;
        var removed := Unwind(c, i, database, teardown, a);
        if !removed { residuals := residuals + [NameOf(c)]; }
        RollbackStep(old(world), before, world, c, LedgerResources(created[i + 1..], database), named, removed,
          database);
        LedgerStep(created, i, database);
      }
      assert created[0..] == created;
    }

    // -- creation ------------------------------------------------------------------

    method EnsureNetwork(
      name: string, created: seq<CreatedResource>, labels: Labels, inspectFails: bool, createFails: bool)
      returns (r: Result<seq<CreatedResource>, BackendError>)
      modifies this`world
      ensures r.Ok? <==> !inspectFails && (Network(name) in old(world) || !createFails)
      ensures r.Ok? ==> world.Keys == old(world).Keys + {Network(name)}
      ensures Grew(old(world), world, created, if r.Ok? then r.value else created, None)
      ensures r.Ok? ==> r.value == created || r.value == created + [CreatedNetwork(name)]
      ensures r.Ok? && Network(name) !in old(world) ==> world[Network(name)] == labels
    {
      if inspectFails { return Err(DockerUnavailable); }
      if Network(name) in world { return Ok(created); }
      var ok := Create(Network(name), labels, createFails);
      if !ok { return Err(ContainerRun); }
      LedgerAppended(created, CreatedNetwork(name), None);
      return Ok(created + [CreatedNetwork(name)]);
    }

    /** The volume enters the ledger before its ownership label is verified. */
    method EnsureVolume(
      name: string, created: seq<CreatedResource>, labels: Labels, token: string, i: nat, f: RunFaults)
      returns (error: Option<BackendError>, created': seq<CreatedResource>)
      requires token != ""
      modifies this`world
      ensures error.None? <==> VolumeStep(f, i, Volume(name) in old(world))
      ensures Grew(old(world), world, created, created', None)
      ensures error.None? ==> world.Keys == old(world).Keys + {Volume(name)}
      ensures created' != created ==>
        created' == created + [CreatedVolume(name, token)] && Stamped(world, created'[|created|])
    {
      if i in f.volumeInspect { return Some(DockerUnavailable), created; }
      if Volume(name) in world { return None, created; }
      var ok := Create(Volume(name), labels.(token := Some(token)), i in f.volume);
      if !ok { return Some(ContainerRun), created; }
      LedgerAppended(created, CreatedVolume(name, token), None);
      created' := created + [CreatedVolume(name, token)];
      return if i in f.volumeLabel then Some(ContainerRun) else None, created';
    }

    /** Only what did not exist before is created, and only that is owned. */
    method Provision(p: Provisioned, labels: Labels, fails: bool) returns (r: Option<Provisioned>)
      modifies this`world
      ensures r.None? ==> world == old(world)
      ensures r == if fails then None else Some(p.(receipt := Narrowed(p, old(world).Keys)))
      ensures r.Some? ==> world.Keys == old(world).Keys + p.receipt.owned && Untouched(old(world), world)
      ensures r.Some? ==> forall x :: x in p.receipt.owned && x !in old(world) ==> world[x] == labels
    {
      if fails { return None; }
      var owned := p.receipt.owned - world.Keys;
      world := map x | x in world.Keys + owned :: if x in world then world[x] else labels;
      return Some(p.(receipt := p.receipt.(owned := owned)));
    }

    /** The initialization container: identified through its id file before its result is judged. */
    method RunBootstrap(
      b: Bootstrap, labels: Labels, created: seq<CreatedResource>, ghost database: Option<Provisioned>)
      returns (r: bool, created': seq<CreatedResource>)
      modifies this`world
      ensures !Leaks(old(world), b) ==> Grew(old(world), world, created, created', database)
      ensures Leaks(old(world), b) ==> !r && created' == created && world == old(world)[Container(b.id) := labels]
      ensures created' == created || (b.Ran? && created' == created + [CreatedContainer(b.id)])
      ensures r ==>
        created' != created && Container(b.id) !in old(world) && world == old(world)[Container(b.id) := labels]
    {
      created' := created;
      match b
      case NeverStarted => return false, created';
      case Unidentified(id) =>
        var _ := Create(Container(id), labels, false);
        return false, created';
      case Ran(id, success) =>
        var ok := Create(Container(id), labels, false);
        if !ok { return false, created'; }
        LedgerAppended(created, CreatedContainer(id), database);
        return success, created + [CreatedContainer(id)];
    }

    /** Initializes a fresh database; the container leaves the ledger only once it is removed. */
    method Initialize(
      b: Bootstrap, labels: Labels, created: seq<CreatedResource>, removeFails: bool,
      ghost database: Option<Provisioned>)
      returns (ok: bool, created': seq<CreatedResource>)
      modifies this`world
      ensures !Leaks(old(world), b) ==> Grew(old(world), world, created, created', database)
      ensures Leaks(old(world), b) ==> !ok && created' == created && world == old(world)[Container(b.id) := labels]
      ensures created' == created || (b.Ran? && created' == created + [CreatedContainer(b.id)])
      ensures ok ==> created' == created && world == old(world)
    {
      ok, created' := RunBootstrap(b, labels, created, database);
      if !ok { return; }
      ok := Remove(Container(b.id), removeFails);
      if !ok { return; }
      created' := created'[..|created'| - 1];
      assert created' == created && world == old(world);
    }

    method StartOdoo(
      plan: Plan, created: seq<CreatedResource>, fails: bool, healthy: bool, ghost database: Option<Provisioned>)
      returns (error: Option<BackendError>, created': seq<CreatedResource>)
      modifies this`world
      ensures Grew(old(world), world, created, created', database)
      ensures created' == created || created' == created + [CreatedContainer(plan.odoo)]
      ensures error.None? ==>
        && Container(plan.odoo) !in old(world)
        && world == old(world)[Container(plan.odoo) := plan.Label("odoo")]
    {
      var started := Create(Container(plan.odoo), plan.Label("odoo"), fails);
      if !started { return Some(ContainerRun), created; }
      LedgerAppended(created, CreatedContainer(plan.odoo), database);
      return if healthy then None else Some(NotHealthy), created + [CreatedContainer(plan.odoo)];
    }

    // -- run -----------------------------------------------------------------------

    /** The database volume is the provisioner's own business; every other one is ensured here. */
    method PrepareVolume(
      plan: Plan, created: seq<CreatedResource>, token: string, i: nat, f: RunFaults, ghost w0: World)
      returns (error: Option<BackendError>, created': seq<CreatedResource>)
      requires i < |plan.volumes| && token != "" && PreparedUpTo(plan, f, w0, world, created, i)
      modifies this`world
      ensures error.None? ==> PreparedUpTo(plan, f, w0, world, created', i + 1)
      ensures error.Some? ==>
        !Prepared(plan, f, w0) && Grew(w0, world, [], created', None) && BackendLeg(world, created')
    {
      if plan.volumes[i] == plan.pgdata {
        PrepareSkips(plan, f, w0, world, created, i);
        return None, created;
      }
      error, created' := EnsureVolume(plan.volumes[i], created, plan.Label(""), token, i, f);
      PrepareStep(plan, f, w0, old(world), created, world, created', i, error.None?, token);
    }

    /** The backend's own leg: the image, the network and every volume but the data volume. */
    method Prepare(plan: Plan, token: nat -> string, f: RunFaults)
      returns (error: Option<BackendError>, created: seq<CreatedResource>)
      requires forall i :: token(i) != ""
      modifies this`world
      ensures error.None? <==> Prepared(plan, f, old(world))
      ensures Grew(old(world), world, [], created, None)
      ensures error.None? ==> world.Keys == old(world).Keys + {Network(plan.network)} + plan.Volumes()
      ensures error.None? ==> NetworkLabelled(plan, old(world), world)
      ensures BackendLeg(world, created)
    {
      created := [];
      if f.image { return Some(ImageFailure), created; }
      var r := EnsureNetwork(plan.network, created, plan.Label(""), f.networkInspect, f.network);
      if r.Err? { return Some(r.error), created; }
      created := r.value;
      var i := 0;
      NetworkPrepared(plan, f, old(world), world, created);
      while i < |plan.volumes|
        invariant 0 <= i <= |plan.volumes|
        invariant PreparedUpTo(plan, f, old(world), world, created, i)
      {
        error, created := PrepareVolume(plan, created, token(i), i, f, old(world));
        if error.Some? { return; }
        i := i + 1;
      }
      AllPrepared(plan, f, old(world), world, created);
      return None, created;
    }

    /** The delegated leg and the Odoo container, in the order that the ledger will be unwound. */
    method Launch(plan: Plan, p: Provisioned, databaseLabels: Labels, f: RunFaults, before: seq<CreatedResource>)
      returns (error: Option<BackendError>, created: seq<CreatedResource>, database: Option<Provisioned>)
      modifies this`world
      ensures Grew(old(world), WithoutAll(world, LaunchLeak(p, f, old(world))), before, created, database)
      ensures LaunchLeak(p, f, old(world)) <= world.Keys && (LaunchLeak(p, f, old(world)) != {} ==> error.Some?)
      ensures database.Some? ==> database.value == p.(receipt := Narrowed(p, old(world).Keys))
      ensures DatabaseLeg(created[|before|..], database, p)
      ensures error.None? ==> database.Some? && Launched(old(world), world, plan, p, databaseLabels)
    {
      ghost var w0 := world;
      created := before;
      database := Provision(p, databaseLabels, f.provision);
      if database.None? { return Some(ProvisionFailure), created, None; }
      created := created + [CreatedDatabase(p.identifier)];
      ghost var w1, c1 := world, created;
      ProvisionGrew(w0, w1, before, p, database.value);
      if p.freshData {
        var ok;
        ok, created := Initialize(f.bootstrap, plan.Label("odoo"), created, f.bootstrapRemove, database);
        if Leaks(w1, f.bootstrap) {
          LeakAside(p, f, w0, w1, world);
        } else {
          GrewAgain(w0, w1, world, before, c1, created, database);
        }
        if !ok { return Some(ContainerRun), created, database; }
      }
      error, created := StartOdoo(plan, created, f.odoo, f.healthy, database);
      GrewAgain(w0, w1, world, before, c1, created, database);
      LaunchedFrom(w0, w1, world, plan, p, databaseLabels, error.None?);
      assert WithoutAll(world, {}) == world;
    }

    /** Both legs, up to a healthy instance. */
    method Build(plan: Plan, p: Provisioned, databaseLabels: Labels, token: nat -> string, f: RunFaults)
      returns (error: Option<BackendError>, created: seq<CreatedResource>, database: Option<Provisioned>)
      requires forall i :: token(i) != ""
      modifies this`world
      ensures AccountedFor(old(world), world, BuildLeak(plan, p, f, old(world)), created, database, p)
      ensures BuildLeak(plan, p, f, old(world)) != {} ==> error.Some?
      ensures error.None? ==> database.Some? && Running(old(world), world, plan, p, databaseLabels)
      ensures error.None? ==> database.value.receipt == Narrowed(p, PreparedKeys(plan, old(world)))
      ensures error.None? ==> Remembers(old(world), world, plan, created)
    {
      ghost var w0 := world;
      database := None;
      error, created := Prepare(plan, token, f);
      ghost var w1, leg := world, created;
      if error.Some? {
        Carried(w0, w1, world, {}, leg, created, database, p);
        return;
      }
      error, created, database := Launch(plan, p, databaseLabels, f, created);
      Carried(w0, w1, world, BuildLeak(plan, p, f, w0), leg, created, database, p);
      if error.None? {
        TokenRemembered(w0, w1, world, plan, leg, created, database, p);
        VolumesStamped(w0, w1, world, plan, leg);
        BuiltIsRunning(w0, w1, world, plan, p, databaseLabels);
      }
    }

    /**
     Any failure unwinds the ledger; success records the proof that `Destroy` will need.
     Whatever fails, what was there before stays, and whatever is left of this
     invocation is named, save for a bootstrap container that was never identified.
     */
    method Run(plan: Plan, p: Provisioned, databaseLabels: Labels, token: nat -> string, f: RunFaults, ghost c: Custody)
      returns (error: Option<BackendError>, residuals: seq<Residual>)
      requires custody != null ==> custody.Tidy() && custody.Holds(c)
      requires forall i :: token(i) != ""
      modifies this`world, custody
      ensures custody != null ==> custody.Tidy()
      ensures custody != null ==>
        custody.Holds(if error.None? then CustodyAfterRun(c, plan, p, old(world), world) else c)
      ensures Untouched(old(world), world)
      ensures error.None? ==>
        Running(old(world), world, plan, p, databaseLabels) && residuals == [] && hasDatabaseProvider
      ensures forall r :: NamedResource(r) in residuals ==> r !in old(world)
      ensures error.Some? ==> forall r :: r in world && r !in old(world) ==>
        (Named(residuals, Some(p), r) <==> r !in BootstrapLeak(this, plan, p, f, old(world)))
      ensures f.teardown == {} && f.cleanup == CleanupAnswer(false, {}, {}) ==> residuals == []
      ensures BootstrapLeak(this, plan, p, f, old(world)) <= world.Keys - old(world).Keys
      ensures BootstrapLeak(this, plan, p, f, old(world)) != {} ==> error.Some?
    {
      ghost var w0 := world;
      residuals := [];
      if !hasDatabaseProvider || !plan.hasCredentials { return Some(NotConfigured), []; }
      if f.credentials { return Some(CredentialFailure), []; }
      if f.existence { return Some(DockerUnavailable), []; }
      if plan.Exists(world) { return Some(InstanceExists), []; }
      var created, database;
      error, created, database := Build(plan, p, databaseLabels, token, f);
      ghost var built := world;
      if error.None? && custody != null && plan.odooVolume.Some? {
        if f.custody {
          error := Some(CustodyFailure);
        } else {
          custody.Record(plan.key, Proof(database.value.receipt, TokenOf(created, plan.odooVolume.value)), c);
        }
      }
      if error.Some? {
        residuals := Rollback(created, database, f.teardown, f.cleanup);
        Unwound(w0, built, world, BuildLeak(plan, p, f, w0), created, database, p, residuals);
      }
    }

    // -- destroy -------------------------------------------------------------------

    /** One runtime resource: absent, someone else's, or removed; `None` when the label inspection raises. */
    method RemoveOne(r: Resource, owned: bool, inspectFails: bool, fails: bool)
      returns (outcome: Option<DestroyOutcome>)
      modifies this`world
      ensures r !in old(world) <==> outcome == Some(AlreadyAbsent)
      ensures outcome == Some(Removed) <==> r in old(world) && !inspectFails && owned && !fails
      ensures outcome == Some(Protected) <==> r in old(world) && !inspectFails && !owned
      ensures outcome.None? <==> r in old(world) && inspectFails
      ensures world == if outcome == Some(Removed) then WithoutAll(old(world), {r}) else old(world)
    {
      if r !in world { return Some(AlreadyAbsent); }
      if inspectFails { return None; }
      if !owned { return Some(Protected); }
      var ok := Remove(r, fails);
      return Some(if ok then Removed else FailedOutcome);
    }

    /** Both containers, then the network; a failed container does not stop the rest, a raised inspection does. */
    method RemoveRuntime(ref: InstanceRef, f: DestroyFaults) returns (outcomes: Option<seq<DestroyOutcome>>)
      requires ref.postgres != ref.odoo
      modifies this`world
      ensures Surrounds(ref, old(world), world)
      ensures outcomes.None? ==> !RuntimeRemovable(ref, f, old(world))
      ensures outcomes.Some? ==> RuntimeTruthful(ref, outcomes.value, old(world), world)
      ensures RuntimeRemovable(ref, f, old(world)) <==>
        outcomes.Some? && forall i :: 0 <= i < 3 ==> Settled(outcomes.value[i])
    {
      if f.reinspect { return None; }
      ghost var w0 := world;
      var results: seq<DestroyOutcome> := [];
      for i := 0 to 3
        invariant |results| == i && Surrounds(ref, w0, world)
        invariant forall j :: i <= j < 3 ==> Kept(RuntimeAt(ref, j), w0, world)
        invariant forall j :: 0 <= j < i ==> Truthful(RuntimeAt(ref, j), results[j], w0, world)
        invariant forall j :: 0 <= j < i ==> (Settled(results[j]) <==> Removable(ref, f, w0, j))
      {
        var r := RuntimeAt(ref, i);
        assert Kept(r, w0, world);
        RuntimeDistinct(ref, i);
        var fails := if i == 0 then f.postgres else if i == 1 then f.odoo else f.network;
        var outcome := RemoveOne(r, Owned(ref, world, i), i in f.ownership, fails);
        if outcome.None? {
          assert !Removable(ref, f, w0, i);
          return None;
        }
        results := results + [outcome.value];
      }
      return Some(results);
    }

    /** What others do to the custody file meanwhile. */
    method Interfere(env: seq<Update>, ghost c: Custody)
      requires custody != null && custody.Tidy() && custody.Holds(c)
      modifies custody
      ensures custody.Tidy() && custody.Holds(ApplyAll(c, env))
    {
      ghost var current := c;
      for i := 0 to |env|
        invariant custody.Tidy() && custody.Holds(current)
        invariant ApplyAll(current, env[i..]) == ApplyAll(c, env)
      {
        assert env[i..][1..] == env[i + 1..];
        match env[i] {
          case RecordProof(k, p) => custody.Record(k, p, current);
          case RemoveEntry(k) => custody.Remove(k, current);
          case ConsumeProof(k) => var _ := custody.Consume(k, current);
          case CompleteProof(k, p) => custody.Complete(k, p, current);
        }
        current := Apply(current, env[i]);
      }
    }

    method ProtectedData(ref: InstanceRef, f: DestroyFaults, failed: bool)
      returns (r: Result<seq<DestroyOutcome>, BackendError>)
      ensures r.Ok? ==> DataTruthful(ref, r.value, world, world)
    {
      if f.pgdataInspect || f.filestoreInspect { return Err(DockerUnavailable); }
      var present := if failed then FailedOutcome else Protected;
      return Ok([
        if Pgdata(ref) in world then present else AlreadyAbsent,
        if Filestore(ref) in world then present else AlreadyAbsent]);
    }

    /** The filestore goes only if it carries the recorded token. */
    method RemoveFilestore(ref: InstanceRef, f: DestroyFaults, token: Option<string>) returns (outcome: DestroyOutcome)
      modifies this`world
      ensures Truthful(Filestore(ref), outcome, old(world), world)
      ensures world
           == if Carries(old(world), Filestore(ref), token) && !f.filestore
              then WithoutAll(old(world), {Filestore(ref)}) else old(world)
      ensures Settled(outcome) <==> Filestore(ref) !in world
    {
      if Filestore(ref) !in world { return AlreadyAbsent; }
      if token == None || token == Some("") { return Protected; }
      if world[Filestore(ref)].token != token { return Protected; }
      var ok := Remove(Filestore(ref), f.filestore);
      return if ok then Removed else FailedOutcome;
    }

    /** What the proof covers is reclaimed, each volume with its own outcome. */
    method ReclaimProven(ref: InstanceRef, f: DestroyFaults, proof: Proof)
      returns (r: Result<seq<DestroyOutcome>, BackendError>, complete: bool)
      modifies this`world
      ensures Covered(ref, proof, old(world), world)
      ensures r.Ok? <==> !f.pgdataInspect && !f.filestoreInspect
      ensures r.Ok? ==> world == WithoutAll(old(world), Reclaimable(ref, f, proof, old(world)))
      ensures complete <==> r.Ok? && f.cleanup.Clean(proof.receipt) && DataGone(ref, world)
      ensures r.Ok? ==> DataTruthful(ref, r.value, old(world), world)
    {
      DataVolumesDiffer(ref);
      if f.pgdataInspect { return Err(DockerUnavailable), false; }
      var before := Pgdata(ref) in world;
      var owned := proof.receipt.owned;
      world := WithoutAll(world, f.cleanup.Removes(proof.receipt));
      var residuals := if f.cleanup.raised then owned else f.cleanup.Residuals(proof.receipt);
      var cleanupFailed := f.cleanup.raised || residuals != {};
      var pgdata :=
        if Pgdata(ref) in owned then
          if Pgdata(ref) in residuals then FailedOutcome else if before then Removed else AlreadyAbsent
        else if before then Protected else AlreadyAbsent;
      if f.filestoreInspect { return Err(DockerUnavailable), false; }
      var filestore := RemoveFilestore(ref, f, proof.token);
      return Ok([pgdata, filestore]), !cleanupFailed && Settled(pgdata) && Settled(filestore);
    }

    /** Data is reclaimed only once the runtime is gone, and only as far as the custody proof reaches. */
    method Reclaim(ref: InstanceRef, f: DestroyFaults, env: seq<Update>, ghost c: Custody)
      returns (r: Result<seq<DestroyOutcome>, BackendError>)
      requires RuntimeGone(ref, world)
      requires custody != null ==> custody.Tidy() && custody.Holds(c)
      modifies this`world, custody
      ensures custody != null ==> custody.Tidy()
      ensures !Provable(this, ref, f, c) ==> world == old(world) && (custody != null ==> custody.Holds(c))
      ensures Provable(this, ref, f, c) ==> Covered(ref, c[ref.key].proof, old(world), world)
      ensures Provable(this, ref, f, c) ==> custody.Holds(CustodyAfterReclaim(ref, f, env, c, r.Ok?, world))
      ensures Provable(this, ref, f, c) && !f.pgdataInspect && !f.filestoreInspect ==>
        world == WithoutAll(old(world), Reclaimable(ref, f, c[ref.key].proof, old(world))) && (!f.complete ==> r.Ok?)
      ensures r.Ok? ==> DataTruthful(ref, r.value, old(world), world)
    {
      if custody == null || !hasDatabaseProvider {
        r := ProtectedData(ref, f, false);
        return;
      }
      if f.consume { return Err(CustodyFailure); }
      var proof := custody.Consume(ref.key, c);
      if proof.None? {
        assert Apply(c, ConsumeProof(ref.key)) == c;
        r := ProtectedData(ref, f, false);
        return;
      }
      Interfere(env, Apply(c, ConsumeProof(ref.key)));
      var complete;
      r, complete := ReclaimProven(ref, f, proof.value);
      if complete {
        if f.complete { return Err(CustodyFailure); }
        custody.Complete(ref.key, proof.value, ApplyAll(Apply(c, ConsumeProof(ref.key)), env));
      }
    }

    /**
     Data is touched only after the runtime has been removed or was absent;
     until then nothing but this instance's own runtime can go.
     */
    method Destroy(ref: InstanceRef, f: DestroyFaults, env: seq<Update>, ghost c: Custody)
      returns (r: Result<seq<DestroyOutcome>, BackendError>)
      requires ref.postgres != ref.odoo
      requires custody != null ==> custody.Tidy() && custody.Holds(c)
      modifies this`world, custody
      ensures custody != null ==> custody.Tidy()
      ensures !Reclaims(this, ref, f, c, old(world)) ==>
        Surrounds(ref, old(world), world) && (custody != null ==> custody.Holds(c))
      ensures Reclaims(this, ref, f, c, old(world)) ==>
        Covered(ref, c[ref.key].proof, WithoutAll(old(world), Runtime(ref)), world)
      ensures Reclaims(this, ref, f, c, old(world)) ==> custody.Holds(CustodyAfterReclaim(ref, f, env, c, r.Ok?, world))
      ensures Reclaims(this, ref, f, c, old(world)) && !f.pgdataInspect && !f.filestoreInspect ==>
        var w1 := WithoutAll(old(world), Runtime(ref));
        world == WithoutAll(w1, Reclaimable(ref, f, c[ref.key].proof, w1)) && (!f.complete ==> r.Ok?)
      ensures r.Ok? ==> ReportTruthful(ref, r.value, old(world), world)
    {
      ghost var w0 := world;
      if f.invalid { return Err(InvalidIdentifier); }
      if f.inspect { return Err(DockerUnavailable); }
      var present := [RuntimeAt(ref, 0) in world, RuntimeAt(ref, 1) in world, RuntimeAt(ref, 2) in world];
      var runtime := RemoveRuntime(ref, f);
      ghost var w1 := world;
      var outcomes := if runtime.Some? then runtime.value
        else [Unconfirmed(present[0]), Unconfirmed(present[1]), Unconfirmed(present[2])];
      assert RuntimeTruthful(ref, outcomes, w0, w1);
      if FailedOutcome in outcomes || runtime.None? {
        r := ProtectedData(ref, f, true);
      } else if Protected in outcomes {
        r := ProtectedData(ref, f, false);
      } else {
        assert forall i :: 0 <= i < 3 ==> outcomes[i] in outcomes;
        RuntimeIsGone(ref, outcomes, w0, w1);
        r := Reclaim(ref, f, env, c);
      }
      if r.Ok? {
        ReportIsTruthful(ref, outcomes, r.value, w0, w1, world);
        r := Ok(outcomes + r.value);
      }
    }

    /**
     The two ends agree: destroying what a run has just brought up gives back the
     world as it was and drops the proof that the run recorded.
     */
    method RunThenDestroy(
      ref: InstanceRef, plan: Plan, p: Provisioned, token: nat -> string, f: RunFaults, g: DestroyFaults,
      ghost c: Custody)
      returns (error: Option<BackendError>)
      requires custody != null && custody.Tidy() && custody.Holds(c)
      requires forall i :: token(i) != ""
      requires PlannedFor(ref, plan, p) && Faultless(g)
      requires forall r :: r in InstanceResources(ref) ==> r !in world
      modifies this`world, custody
      ensures error.None? ==> world == old(world) && custody.Holds(Without(c, ref.key))
    {
      ghost var w0 := world;
      var residuals;
      error, residuals := Run(plan, p, plan.Label("postgres"), token, f, c);
      if error.Some? { return; }
      ghost var w1, c1 := world, CustodyAfterRun(c, plan, p, w0, world);
      DestroyedIsGone(ref, plan, p, g, w0, w1, c);
      assert Reclaims(this, ref, g, c1, w1);
      var r := Destroy(ref, g, [], c1);
      assert world == w0;
    }
  }

  /**
   The gap that the leak is about: with no other fault and clean teardown, a
   bootstrap container without an id file stays up and no residual names it.
   */
  method UnidentifiedBootstrapStays(id: string, token: nat -> string)
    returns (provider: DockerBackendProvider, residuals: seq<Residual>)
    requires forall i :: token(i) != ""
    ensures Container(id) in provider.world && !Named(residuals, Some(UnownedDatabase()), Container(id))
  {
    var plan := Plan(Key("p", "i"), "n", [], "n-pgdata", "n-postgres", "n-odoo", None, true);
    var cleanup := CleanupAnswer(false, {}, {});
    var faults := RunFaults(
      false, false, false, false, false, {}, {}, {}, false, Unidentified(id), false, false, true, false, {}, cleanup);
    provider := new DockerBackendProvider(true, null, map[]);
    assert BootstrapLeak(provider, plan, UnownedDatabase(), faults, map[]) == {Container(id)};
    var error;
    error, residuals := provider.Run(plan, UnownedDatabase(), plan.Label("postgres"), token, faults, map[]);
  }

  function UnownedDatabase(): Provisioned { Provisioned("db", Receipt("op", {}), true) }

  lemma LedgerStep(created: seq<CreatedResource>, i: nat, database: Option<Provisioned>)
    requires i < |created|
    ensures LedgerResources(created[i..], database)
         == ResourcesOf(created[i], database) + LedgerResources(created[i + 1..], database)
  {
    assert created[i..] == [created[i]] + created[i + 1..];
  }

  /** Of `torn` only what a residual names is left, and nothing else was touched. */
  ghost predicate RolledBack(
    before: World, after: World, torn: set<Resource>, residuals: seq<Residual>, database: Option<Provisioned>)
  {
    && (forall r :: r in before && r !in torn ==> r in after)
    && (forall r :: r in after ==> r in before && after[r] == before[r])
    && (forall r :: r in after && r in torn ==> Named(residuals, database, r))
  }

  lemma RollbackStep(
    before: World, w: World, after: World, c: CreatedResource, torn: set<Resource>,
    residuals: seq<Residual>, removed: bool, database: Option<Provisioned>)
    requires RolledBack(before, w, torn, residuals, database)
    requires c.CreatedDatabase? ==> database.Some? && c.identifier == database.value.identifier
    requires forall r :: r in after ==> r in w && after[r] == w[r]
    requires forall r :: r in w && r !in ResourcesOf(c, database) ==> r in after
    requires removed ==> forall r :: r in ResourcesOf(c, database) ==> r !in after
    ensures var residuals' := if removed then residuals else residuals + [NameOf(c)];
      RolledBack(before, after, ResourcesOf(c, database) + torn, residuals', database)
  {
    var residuals' := if removed then residuals else residuals + [NameOf(c)];
    forall r | Named(residuals, database, r) ensures Named(residuals', database, r) {}
    if !removed { assert NameOf(c) in residuals'; }
  }

  /** From `before` to `after` exactly the new ledger entries came into the world, and nothing else changed. */
  ghost predicate Grew(
    before: World, after: World, created: seq<CreatedResource>, created': seq<CreatedResource>,
    database: Option<Provisioned>)
  {
    && created <= created' && Untouched(before, after)
    && after.Keys - before.Keys == LedgerResources(created'[|created|..], database)
    && Unwindable(after, created'[|created|..], database)
  }

  /** No two entries share a resource, and every volume carries its token. */
  ghost predicate Unwindable(w: World, created: seq<CreatedResource>, database: Option<Provisioned>) {
    && (forall i, j :: 0 <= i < j < |created| ==>
          ResourcesOf(created[i], database) !! ResourcesOf(created[j], database))
    && (forall c :: c in created && c.CreatedVolume? ==> Stamped(w, c))
  }

  ghost predicate VolumesAhead(w: World, created: seq<CreatedResource>, n: nat)
    requires n <= |created|
  {
    forall j :: 0 <= j < n && created[j].CreatedVolume? ==> Stamped(w, created[j])
  }

  /** No teardown step of the ledger fails. */
  ghost predicate Unhindered(
    w: World, created: seq<CreatedResource>, database: Option<Provisioned>, teardown: set<nat>, a: CleanupAnswer)
  {
    && Unwindable(w, created, database)
    && forall i :: 0 <= i < |created| ==> !StepFails(created[i], i, database, teardown, a)
  }

  predicate StepFails(c: CreatedResource, i: nat, database: Option<Provisioned>, teardown: set<nat>, a: CleanupAnswer) {
    if c.CreatedDatabase? then database.Some? && !a.Clean(database.value.receipt) else i in teardown
  }

  lemma LedgerAppended(created: seq<CreatedResource>, c: CreatedResource, database: Option<Provisioned>)
    ensures LedgerResources((created + [c])[|created|..], database) == ResourcesOf(c, database)
    ensures LedgerResources(created + [c], database) == LedgerResources(created, database) + ResourcesOf(c, database)
  {
    assert (created + [c])[|created|..] == [c];
  }

  lemma GrewAgain(
    w0: World, w1: World, w2: World,
    c0: seq<CreatedResource>, c1: seq<CreatedResource>, c2: seq<CreatedResource>, database: Option<Provisioned>)
    requires Grew(w0, w1, c0, c1, database) && Grew(w1, w2, c1, c2, database)
    ensures Grew(w0, w2, c0, c2, database)
  {
    assert c2[|c0|..] == c1[|c0|..] + c2[|c1|..];
    forall c | c in c2[|c0|..] ensures c in c1[|c0|..] || c in c2[|c1|..] {}
    assert LedgerResources(c2[|c0|..], database)
        == LedgerResources(c1[|c0|..], database) + LedgerResources(c2[|c1|..], database);
    UnwindableAgain(w1, w2, c1[|c0|..], c2[|c1|..], database);
  }

  /** Entries for resources that were not there are separate from those that were. */
  lemma UnwindableAgain(
    w1: World, w2: World, older: seq<CreatedResource>, newer: seq<CreatedResource>, database: Option<Provisioned>)
    requires Unwindable(w1, older, database) && Unwindable(w2, newer, database) && Untouched(w1, w2)
    requires LedgerResources(older, database) <= w1.Keys && LedgerResources(newer, database) !! w1.Keys
    ensures Unwindable(w2, older + newer, database)
  {
    var all := older + newer;
    forall i, j | 0 <= i < j < |all| ensures ResourcesOf(all[i], database) !! ResourcesOf(all[j], database) {
      if i < |older| <= j {
        assert all[i] in older && all[j] in newer;
        assert ResourcesOf(all[i], database) <= LedgerResources(older, database);
        assert ResourcesOf(all[j], database) <= LedgerResources(newer, database);
      }
    }
    forall c | c in all && c.CreatedVolume? ensures Stamped(w2, c) {
      if c in older { assert Stamped(w1, c); } else { assert c in newer; }
    }
  }

  ghost function VolumesUpTo(plan: Plan, n: nat): set<Resource>
    requires n <= |plan.volumes|
  {
    set v | v in plan.volumes[..n] && v != plan.pgdata :: Volume(v)
  }

  /** A created volume carries the token the ledger remembers. */
  predicate Stamped(w: World, c: CreatedResource)
    requires c.CreatedVolume?
  {
    Volume(c.name) in w && w[Volume(c.name)].token == Some(c.token) && c.token != ""
  }

  ghost predicate NetworkLabelled(plan: Plan, w0: World, w: World) {
    Network(plan.network) in w && (Network(plan.network) !in w0 ==> w[Network(plan.network)] == plan.Label(""))
  }

  ghost predicate BackendLeg(w: World, created: seq<CreatedResource>) {
    forall c :: c in created ==> c.CreatedNetwork? || (c.CreatedVolume? && Stamped(w, c))
  }

  ghost predicate PreparedUpTo(plan: Plan, f: RunFaults, w0: World, w: World, created: seq<CreatedResource>, n: nat)
    requires n <= |plan.volumes|
  {
    && !f.image && NetworkReady(plan, f, w0)
    && (forall j :: 0 <= j < n ==> VolumeReady(plan, f, w0, j))
    && Grew(w0, w, [], created, None)
    && w.Keys == w0.Keys + {Network(plan.network)} + VolumesUpTo(plan, n)
    && NetworkLabelled(plan, w0, w)
    && BackendLeg(w, created)
  }

  lemma NetworkPrepared(plan: Plan, f: RunFaults, w0: World, w: World, created: seq<CreatedResource>)
    requires !f.image && NetworkReady(plan, f, w0) && NetworkLabelled(plan, w0, w)
    requires Grew(w0, w, [], created, None) && w.Keys == w0.Keys + {Network(plan.network)}
    requires created == [] || created == [CreatedNetwork(plan.network)]
    ensures PreparedUpTo(plan, f, w0, w, created, 0)
  {
    assert VolumesUpTo(plan, 0) == {};
  }

  lemma AllPrepared(plan: Plan, f: RunFaults, w0: World, w: World, created: seq<CreatedResource>)
    requires PreparedUpTo(plan, f, w0, w, created, |plan.volumes|)
    ensures Prepared(plan, f, w0)
    ensures w.Keys == w0.Keys + {Network(plan.network)} + plan.Volumes()
  {
    assert plan.volumes[..|plan.volumes|] == plan.volumes;
    assert VolumesUpTo(plan, |plan.volumes|) == plan.Volumes();
  }

  lemma PrepareSkips(plan: Plan, f: RunFaults, w0: World, w: World, created: seq<CreatedResource>, i: nat)
    requires i < |plan.volumes| && plan.volumes[i] == plan.pgdata
    requires PreparedUpTo(plan, f, w0, w, created, i)
    ensures PreparedUpTo(plan, f, w0, w, created, i + 1)
  {
    assert plan.volumes[..i + 1] == plan.volumes[..i] + [plan.volumes[i]];
    assert VolumesUpTo(plan, i + 1) == VolumesUpTo(plan, i);
  }

  lemma PrepareStep(
    plan: Plan, f: RunFaults, w0: World, w1: World, c1: seq<CreatedResource>, w2: World, c2: seq<CreatedResource>,
    i: nat, ok: bool, token: string)
    requires i < |plan.volumes| && plan.volumes[i] != plan.pgdata
    requires PreparedUpTo(plan, f, w0, w1, c1, i)
    requires ok <==> VolumeStep(f, i, Volume(plan.volumes[i]) in w1)
    requires Grew(w1, w2, c1, c2, None)
    requires ok ==> w2.Keys == w1.Keys + {Volume(plan.volumes[i])}
    requires c2 == c1 || (c2 == c1 + [CreatedVolume(plan.volumes[i], token)] && Stamped(w2, c2[|c1|]))
    ensures ok ==> PreparedUpTo(plan, f, w0, w2, c2, i + 1)
    ensures !ok ==> !VolumeReady(plan, f, w0, i) && Grew(w0, w2, [], c2, None) && BackendLeg(w2, c2)
  {
    GrewAgain(w0, w1, w2, [], c1, c2, None);
    assert Volume(plan.volumes[i]) in VolumesUpTo(plan, i) <==> plan.volumes[i] in plan.volumes[..i];
    assert plan.volumes[..i + 1] == plan.volumes[..i] + [plan.volumes[i]];
    assert VolumesUpTo(plan, i + 1) == VolumesUpTo(plan, i) + {Volume(plan.volumes[i])};
    assert BackendLeg(w2, c2) by {
      forall c | c in c2 && c.CreatedVolume? ensures Stamped(w2, c) {
        if c in c1 { assert Stamped(w1, c); }
      }
    }
  }

  predicate NetworkReady(plan: Plan, f: RunFaults, w: World) {
    !f.networkInspect && (Network(plan.network) in w || !f.network)
  }

  /** An existing volume is only inspected; a missing one is created and its label verified. */
  predicate VolumeReady(plan: Plan, f: RunFaults, w: World, i: nat)
    requires i < |plan.volumes|
  {
    plan.volumes[i] == plan.pgdata
    || VolumeStep(f, i, Volume(plan.volumes[i]) in w || plan.volumes[i] in plan.volumes[..i])
  }

  predicate VolumeStep(f: RunFaults, i: nat, present: bool) {
    i !in f.volumeInspect && (present || (i !in f.volume && i !in f.volumeLabel))
  }

  predicate Prepared(plan: Plan, f: RunFaults, w: World) {
    !f.image && NetworkReady(plan, f, w) && forall i :: 0 <= i < |plan.volumes| ==> VolumeReady(plan, f, w, i)
  }

  /** The receipt owns only what was not there before. */
  function Narrowed(p: Provisioned, present: set<Resource>): Receipt {
    p.receipt.(owned := p.receipt.owned - present)
  }

  /** What a launch leaves running without any way to name it. */
  function LaunchLeak(p: Provisioned, f: RunFaults, w: World): set<Resource> {
    if !f.provision && p.freshData && Leaks(w, f.bootstrap) && Container(f.bootstrap.id) !in p.receipt.owned
    then {Container(f.bootstrap.id)} else {}
  }

  ghost predicate DatabaseLeg(created: seq<CreatedResource>, database: Option<Provisioned>, p: Provisioned) {
    forall c :: c in created ==>
      c.CreatedContainer? || (c.CreatedDatabase? && database.Some? && c.identifier == p.identifier)
  }

  ghost predicate Launched(before: World, after: World, plan: Plan, p: Provisioned, databaseLabels: Labels) {
    && after.Keys == before.Keys + p.receipt.owned + {Container(plan.odoo)}
    && Container(plan.odoo) !in before && Container(plan.odoo) !in p.receipt.owned
    && after[Container(plan.odoo)] == plan.Label("odoo")
    && forall r :: r in p.receipt.owned && r !in before ==> after[r] == databaseLabels
  }

  lemma ProvisionGrew(w0: World, w1: World, before: seq<CreatedResource>, p: Provisioned, d: Provisioned)
    requires w1.Keys == w0.Keys + p.receipt.owned && Untouched(w0, w1)
    requires d.receipt.owned == p.receipt.owned - w0.Keys
    ensures Grew(w0, w1, before, before + [CreatedDatabase(p.identifier)], Some(d))
  {
    LedgerAppended(before, CreatedDatabase(p.identifier), Some(d));
  }

  /** The leak set aside, nothing came of a bootstrap container that nobody can name. */
  lemma LeakAside(p: Provisioned, f: RunFaults, w0: World, w1: World, w2: World)
    requires !f.provision && p.freshData && Leaks(w1, f.bootstrap)
    requires w1.Keys == w0.Keys + p.receipt.owned
    requires w2.Keys == w1.Keys + {Container(f.bootstrap.id)} && Untouched(w1, w2)
    ensures LaunchLeak(p, f, w0) == {Container(f.bootstrap.id)}
    ensures WithoutAll(w2, LaunchLeak(p, f, w0)) == w1
  {
  }

  lemma LaunchedFrom(w0: World, w1: World, w2: World, plan: Plan, p: Provisioned, databaseLabels: Labels, ok: bool)
    requires w1.Keys == w0.Keys + p.receipt.owned && Untouched(w0, w1)
    requires forall x :: x in p.receipt.owned && x !in w0 ==> w1[x] == databaseLabels
    requires ok ==> Container(plan.odoo) !in w1 && w2 == w1[Container(plan.odoo) := plan.Label("odoo")]
    ensures ok ==> Launched(w0, w2, plan, p, databaseLabels)
  {
  }

  /** The creation token that the run remembers for a volume. */
  function TokenOf(created: seq<CreatedResource>, name: string): Option<string> {
    if created == [] then None
    else if created[0].CreatedVolume? && created[0].name == name then Some(created[0].token)
    else TokenOf(created[1..], name)
  }

  ghost predicate AccountedFor(
    w0: World, w2: World, leak: set<Resource>, created: seq<CreatedResource>, database: Option<Provisioned>,
    p: Provisioned)
  {
    && Untouched(w0, WithoutAll(w2, leak))
    && LedgerResources(created, database) == WithoutAll(w2, leak).Keys - w0.Keys
    && leak <= w2.Keys && leak !! w0.Keys && leak !! p.receipt.owned
    && (database.Some? ==> database.value.identifier == p.identifier && database.value.receipt.owned <= p.receipt.owned)
    && (forall c :: c in created && c.CreatedDatabase? ==> database.Some? && c.identifier == p.identifier)
    && Unwindable(w2, created, database)
  }

  /** The two legs together account for everything new, save for what leaked. */
  lemma Carried(
    w0: World, w1: World, w2: World, leak: set<Resource>, leg: seq<CreatedResource>, created: seq<CreatedResource>,
    database: Option<Provisioned>, p: Provisioned)
    requires Grew(w0, w1, [], leg, None) && BackendLeg(w1, leg)
    requires Grew(w1, WithoutAll(w2, leak), leg, created, database)
    requires DatabaseLeg(created[|leg|..], database, p)
    requires leak <= w2.Keys && leak !! w1.Keys && leak !! p.receipt.owned
    requires database.Some? ==>
      database.value.identifier == p.identifier && database.value.receipt.owned <= p.receipt.owned
    ensures AccountedFor(w0, w2, leak, created, database, p)
  {
    assert leg[0..] == leg;
    forall c | c in leg ensures ResourcesOf(c, None) == ResourcesOf(c, database) {}
    assert LedgerResources(leg, None) == LedgerResources(leg, database);
    GrewAgain(w0, w1, WithoutAll(w2, leak), [], leg, created, database);
    assert created[0..] == created;
    forall c | c in created && c.CreatedDatabase? ensures database.Some? && c.identifier == p.identifier {
      assert created == leg + created[|leg|..];
      assert c in created[|leg|..];
    }
  }

  lemma {:induction false} TokenOfIs(w: World, created: seq<CreatedResource>, name: string)
    requires forall c :: c in created && c.CreatedVolume? ==> Stamped(w, c)
    ensures Volume(name) in LedgerResources(created, None) ==>
      Volume(name) in w && TokenOf(created, name) == w[Volume(name)].token
    ensures Volume(name) !in LedgerResources(created, None) ==> TokenOf(created, name) == None
    decreases |created|
  {
    if created != [] {
      assert created[0] in created;
      LedgerStep(created, 0, None);
      assert created[0..] == created;
      TokenOfIs(w, created[1..], name);
    }
  }

  lemma TokenRemembered(
    w0: World, w1: World, w2: World, plan: Plan, leg: seq<CreatedResource>, created: seq<CreatedResource>,
    database: Option<Provisioned>, p: Provisioned)
    requires Grew(w0, w1, [], leg, None) && BackendLeg(w1, leg) && w1.Keys == PreparedKeys(plan, w0)
    requires leg <= created && DatabaseLeg(created[|leg|..], database, p) && Untouched(w1, w2)
    ensures Remembers(w0, w2, plan, created)
  {
    if plan.odooVolume.None? { return; }
    assert created == leg + created[|leg|..] && leg[0..] == leg;
    forall c | c in created && c.CreatedVolume? ensures c in leg && Stamped(w2, c) {
      assert c in leg;
      assert Stamped(w1, c);
    }
    TokenOfIs(w2, created, plan.odooVolume.value);
    assert LedgerResources(leg, None) <= LedgerResources(created, None);
    forall r: Resource | r.kind == VolumeKind && r in LedgerResources(created, None)
      ensures r in LedgerResources(leg, None)
    {
    }
  }

  lemma VolumesStamped(w0: World, w1: World, w2: World, plan: Plan, leg: seq<CreatedResource>)
    requires Grew(w0, w1, [], leg, None) && BackendLeg(w1, leg) && w1.Keys == PreparedKeys(plan, w0)
    requires Untouched(w1, w2)
    ensures forall r :: r in plan.Volumes() && r !in w0 ==> r in w2 && Tokened(w2[r])
  {
    assert leg[0..] == leg;
    forall r | r in plan.Volumes() && r !in w0 ensures r in w2 && Tokened(w2[r]) {
      assert r in w1 && r in LedgerResources(leg, None);
      var c :| c in leg && r in ResourcesOf(c, None);
      assert Stamped(w1, c);
    }
  }

  predicate Tokened(l: Labels) { l.token.Some? && l.token.value != "" }

  /** Rolling back what is accounted for leaves the old world, what is named, and the leak. */
  lemma Unwound(
    w0: World, w2: World, w3: World, leak: set<Resource>, created: seq<CreatedResource>,
    database: Option<Provisioned>, p: Provisioned, residuals: seq<Residual>)
    requires AccountedFor(w0, w2, leak, created, database, p)
    requires forall r :: r in w2 && r !in LedgerResources(created, database) ==> r in w3 && w3[r] == w2[r]
    requires forall r :: r in w3 ==> r in w2 && w3[r] == w2[r]
    requires forall r :: r in w3 && r in LedgerResources(created, database) ==> Named(residuals, database, r)
    requires forall n :: n in residuals ==> exists c :: c in created && NameOf(c) == n
    ensures Untouched(w0, w3) && leak <= w3.Keys - w0.Keys
    ensures forall r :: NamedResource(r) in residuals ==> r !in w0
    ensures forall r :: r in w3 && r !in w0 ==> (Named(residuals, Some(p), r) <==> r !in leak)
  {
    forall r | NamedResource(r) in residuals ensures r in LedgerResources(created, database) {
      var c :| c in created && NameOf(c) == NamedResource(r);
      assert r in ResourcesOf(c, database);
    }
    forall r | r in w3 && r !in w0 ensures Named(residuals, Some(p), r) <==> r !in leak {
      if r !in leak { assert Named(residuals, database, r); }
    }
  }

  /** A running instance: the old world, and exactly the planned and provisioned resources. */
  ghost predicate Running(before: World, after: World, plan: Plan, p: Provisioned, databaseLabels: Labels) {
    && after.Keys == before.Keys + {Network(plan.network), Container(plan.odoo)} + plan.Volumes() + p.receipt.owned
    && NetworkLabelled(plan, before, after)
    && after[Container(plan.odoo)] == plan.Label("odoo")
    && (forall r :: r in Narrowed(p, PreparedKeys(plan, before)).owned ==> after[r] == databaseLabels)
    && (forall r :: r in plan.Volumes() && r !in before ==> Tokened(after[r]))
  }

  ghost function PreparedKeys(plan: Plan, w: World): set<Resource> {
    w.Keys + {Network(plan.network)} + plan.Volumes()
  }

  /** The token of the Odoo volume, if this run created it. */
  ghost function OdooToken(plan: Plan, before: World, after: World): Option<string>
    requires plan.odooVolume.Some?
  {
    var v := Volume(plan.odooVolume.value);
    if v in plan.Volumes() && v !in before && v in after then after[v].token else None
  }

  ghost predicate Remembers(before: World, after: World, plan: Plan, created: seq<CreatedResource>) {
    plan.odooVolume.Some? ==> TokenOf(created, plan.odooVolume.value) == OdooToken(plan, before, after)
  }

  lemma BuiltIsRunning(w0: World, w1: World, w2: World, plan: Plan, p: Provisioned, databaseLabels: Labels)
    requires w1.Keys == PreparedKeys(plan, w0) && NetworkLabelled(plan, w0, w1) && Untouched(w1, w2)
    requires Launched(w1, w2, plan, p, databaseLabels)
    requires forall r :: r in plan.Volumes() && r !in w0 ==> r in w2 && Tokened(w2[r])
    ensures Running(w0, w2, plan, p, databaseLabels)
  {
    assert w2[Network(plan.network)] == w1[Network(plan.network)];
  }

  /** What a run records: the narrowed receipt, and the token of the Odoo volume if this run created it. */
  ghost function CustodyAfterRun(c: Custody, plan: Plan, p: Provisioned, before: World, after: World): Custody {
    if plan.odooVolume.None? then c else
      Apply(c, RecordProof(plan.key, Proof(Narrowed(p, PreparedKeys(plan, before)), OdooToken(plan, before, after))))
  }

  /** The exact case that rollback cannot name: a run that reaches a bootstrap without an id file. */
  ghost function BootstrapLeak(
    b: DockerBackendProvider, plan: Plan, p: Provisioned, f: RunFaults, w: World): set<Resource>
  {
    if b.hasDatabaseProvider && plan.hasCredentials && !f.credentials && !f.existence && !plan.Exists(w)
    then BuildLeak(plan, p, f, w) else {}
  }

  function BuildLeak(plan: Plan, p: Provisioned, f: RunFaults, w: World): set<Resource> {
    if Prepared(plan, f, w) then LaunchLeak(p, f, w) else {}
  }

  /** A bootstrap container that exists but could not be identified. */
  predicate Leaks(w: World, b: Bootstrap) {
    b.Unidentified? && Container(b.id) !in w
  }
}
