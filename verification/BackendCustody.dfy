/** The backend custody file: one ownership proof per project and instance. */
module BackendCustody {
  import opened Wrappers

  datatype Kind = NetworkKind | VolumeKind | ContainerKind

  /** A Docker resource; owned resource ids carry their kind. */
  datatype Resource = Resource(kind: Kind, name: string)

  datatype Receipt = Receipt(operation: string, owned: set<Resource>)

  datatype Proof = Proof(receipt: Receipt, token: Option<string>)

  /** `inProgress` is set by `consume` and cleared by recording again. */
  datatype Entry = Entry(proof: Proof, inProgress: bool)

  datatype Key = Key(project: string, instance: string)

  type Custody = map<Key, Entry>

  datatype Update =
    | RecordProof(key: Key, proof: Proof)
    | RemoveEntry(key: Key)
    | ConsumeProof(key: Key)
    | CompleteProof(key: Key, proof: Proof)

  ghost function Without(c: Custody, key: Key): Custody {
    map k | k in c && k != key :: c[k]
  }

  ghost predicate Completes(c: Custody, key: Key, proof: Proof) {
    key in c && c[key].inProgress && c[key].proof == proof
  }

  ghost function Apply(c: Custody, u: Update): Custody {
    match u
    case RecordProof(k, p) => c[k := Entry(p, false)]
    case RemoveEntry(k) => Without(c, k)
    case ConsumeProof(k) => if k in c then c[k := c[k].(inProgress := true)] else c
    case CompleteProof(k, p) => if Completes(c, k, p) then Without(c, k) else c
  }

  ghost function ApplyAll(c: Custody, us: seq<Update>): Custody
    decreases |us|
  {
    if us == [] then c else ApplyAll(Apply(c, us[0]), us[1..])
  }

  // ------------------------------------------------------------------------
  // A stale completion
  // ------------------------------------------------------------------------

  /** Until it is consumed again, a re-recorded entry is never in progress. */
  lemma {:induction false} RerecordedStaysIdle(c: Custody, us: seq<Update>, key: Key)
    requires key in c ==> !c[key].inProgress
    requires ConsumeProof(key) !in us
    ensures key in ApplyAll(c, us) ==> !ApplyAll(c, us)[key].inProgress
    decreases |us|
  {
    if us != [] {
      assert us[0] in us;
      RerecordedStaysIdle(Apply(c, us[0]), us[1..], key);
    }
  }

  /**
   A destroyer that consumed `stale` before the entry was recorded anew never
   removes the new entry, whatever the others do, unless it is consumed again.
   */
  lemma StaleCompleteKeepsRerecorded(c: Custody, us: seq<Update>, key: Key, stale: Proof, renewed: Proof)
    requires ConsumeProof(key) !in us
    ensures var t := ApplyAll(Apply(c, RecordProof(key, renewed)), us);
      Apply(t, CompleteProof(key, stale)) == t
  {
    RerecordedStaysIdle(Apply(c, RecordProof(key, renewed)), us, key);
  }

  predicate Touches(u: Update, key: Key) { u.key == key && !u.ConsumeProof? }

  lemma {:induction false} ConsumedMarksProgress(c: Custody, us: seq<Update>, key: Key)
    requires key in c && forall u :: u in us ==> !Touches(u, key)
    ensures key in ApplyAll(c, us) && ApplyAll(c, us)[key].proof == c[key].proof
    ensures ApplyAll(c, us)[key].inProgress <==> c[key].inProgress || ConsumeProof(key) in us
    decreases |us|
  {
    if us != [] {
      assert us[0] in us;
      forall u | u in us[1..] ensures !Touches(u, key) { assert u in us; }
      ConsumedMarksProgress(Apply(c, us[0]), us[1..], key);
      assert ConsumeProof(key) in us <==> us[0] == ConsumeProof(key) || ConsumeProof(key) in us[1..];
    }
  }

  /**
   Exactly when a stale completion does remove a re-recorded entry: it was
   consumed again meanwhile, and carries the very same receipt and token.
   */
  lemma StaleCompleteRemovesIff(c: Custody, us: seq<Update>, key: Key, stale: Proof, renewed: Proof)
    requires forall u :: u in us ==> !Touches(u, key)
    ensures var t := ApplyAll(Apply(c, RecordProof(key, renewed)), us);
      key !in Apply(t, CompleteProof(key, stale)) <==> ConsumeProof(key) in us && stale == renewed
  {
    ConsumedMarksProgress(Apply(c, RecordProof(key, renewed)), us, key);
  }

  // ------------------------------------------------------------------------
  // The file: a dictionary of instances per project
  // ------------------------------------------------------------------------

  class BackendOwnershipCustody {
    var projects: map<string, map<string, Entry>>

    /** A project without instances is dropped from the file. */
    ghost predicate Tidy()
      reads this
    {
      forall p :: p in projects ==> projects[p] != map[]
    }

    function Lookup(key: Key): Option<Entry>
      reads this
    {
      if key.project in projects && key.instance in projects[key.project]
      then Some(projects[key.project][key.instance]) else None
    }

    /** The file holds exactly the entries of `c`. */
    ghost predicate Holds(c: Custody)
      reads this
    {
      forall k :: Lookup(k) == if k in c then Some(c[k]) else None
    }

    constructor ()
      ensures Tidy() && Holds(map[])
    {
      projects := map[];
    }

    method Record(key: Key, proof: Proof, ghost c: Custody)
      requires Tidy() && Holds(c)
      modifies this
      ensures Tidy() && Holds(Apply(c, RecordProof(key, proof)))
    {
      var entries := if key.project in projects then projects[key.project] else map[];
      projects := projects[key.project := entries[key.instance := Entry(proof, false)]];
      assert key.instance in projects[key.project];
    }

    method Remove(key: Key, ghost c: Custody)
      requires Tidy() && Holds(c)
      modifies this
      ensures Tidy() && Holds(Apply(c, RemoveEntry(key)))
    {
      if key.project in projects {
        Drop(key);
      }
    }

    method Consume(key: Key, ghost c: Custody) returns (proof: Option<Proof>)
      requires Tidy() && Holds(c)
      modifies this
      ensures Tidy() && Holds(Apply(c, ConsumeProof(key)))
      ensures proof == if key in c then Some(c[key].proof) else None
    {
      var entry := Lookup(key);
      assert Lookup(key) == if key in c then Some(c[key]) else None;
      if entry.None? { return None; }
      var entries := projects[key.project];
      projects := projects[key.project := entries[key.instance := entry.value.(inProgress := true)]];
      assert key.instance in projects[key.project];
      return Some(entry.value.proof);
    }

    method Complete(key: Key, proof: Proof, ghost c: Custody)
      requires Tidy() && Holds(c)
      modifies this
      ensures Tidy() && Holds(Apply(c, CompleteProof(key, proof)))
    {
      var entry := Lookup(key);
      assert Lookup(key) == if key in c then Some(c[key]) else None;
      if entry.None? || !entry.value.inProgress || entry.value.proof != proof { return; }
      Drop(key);
    }

    method Drop(key: Key)
      requires Tidy() && key.project in projects
      modifies this
      ensures Tidy() && Lookup(key) == None
      ensures forall k :: k != key ==> Lookup(k) == old(Lookup(k))
    {
      var entries := map i | i in projects[key.project] && i != key.instance :: projects[key.project][i];
      if entries == map[] {
        projects := map p | p in projects && p != key.project :: projects[p];
        forall k | k != key ensures Lookup(k) == old(Lookup(k)) {
          if k.project == key.project { assert k.instance !in entries; }
        }
      } else {
        projects := projects[key.project := entries];
      }
    }

    method Load(key: Key, ghost c: Custody) returns (proof: Option<Proof>)
      requires Holds(c)
      ensures proof == if key in c then Some(c[key].proof) else None
    {
      assert Lookup(key) == if key in c then Some(c[key]) else None;
      var entry := Lookup(key);
      return if entry.Some? then Some(entry.value.proof) else None;
    }
  }
}
