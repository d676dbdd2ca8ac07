/**
 The local ownership authority: an append-only, generation-numbered, signed log
 of container custody.  A signature is modelled as the pair of signing key and
 signed payload, so that verification succeeds exactly on genuine signatures.
 */
module OwnershipLedger {
  import opened Wrappers

  datatype RecordState = Reserved | Active | Retired

  datatype Record = Record(operation: string, kind: string, name: string, dockerId: string, state: RecordState)

  type KeyId = string

  type PrivateKey = string

  datatype Payload =
    | RecordPayload(record: Record, generation: nat, keyId: KeyId)
    | EvidencePayload(
        schema: int, keyId: KeyId, operation: string, dockerId: string,
        nonce: string, observedAt: int, expiresAt: int)

  datatype Signature = Signature(key: PrivateKey, payload: Payload)

  datatype Stored = Stored(record: Record, generation: nat, keyId: KeyId, signature: Signature)

  datatype Evidence = Evidence(
    schema: int, keyId: KeyId, operation: string, dockerId: string,
    nonce: string, observedAt: int, expiresAt: int, signature: Signature) {
    function Payload(): Payload {
      EvidencePayload(schema, keyId, operation, dockerId, nonce, observedAt, expiresAt)
    }
  }

  datatype Ledger = Ledger(
    generation: nat, records: seq<Stored>, keys: map<KeyId, PrivateKey>, activeKey: KeyId, usedNonces: seq<string>)

  datatype AuthorityError = StateError | Conflict

  /** The files of one authority: the lock file is created by the first locked operation. */
  datatype Disk = Disk(lock: bool, file: Option<Ledger>)

  // ------------------------------------------------------------------------
  // Validity of a stored ledger
  // ------------------------------------------------------------------------

  predicate ValidRecord(r: Record) {
    && r.operation != "" && r.kind != "" && r.name != ""
    && (r.state != Reserved ==> r.dockerId != "")
  }

  predicate GoodRecord(keys: map<KeyId, PrivateKey>, s: Stored) {
    && s.keyId in keys && ValidRecord(s.record)
    && s.signature == Signature(keys[s.keyId], RecordPayload(s.record, s.generation, s.keyId))
  }

  ghost predicate Valid(l: Ledger) {
    && l.activeKey in l.keys
    && (forall i :: 0 <= i < |l.records| ==> GoodRecord(l.keys, l.records[i]))
    && (forall i :: 0 <= i < |l.records| ==> l.records[i].generation > 0)
    && (forall i, j :: 0 <= i < j < |l.records| ==> l.records[i].generation < l.records[j].generation)
    && l.generation == if l.records == [] then 0 else l.records[|l.records| - 1].generation
  }

  // ------------------------------------------------------------------------
  // The latest record of an operation for a name
  // ------------------------------------------------------------------------

  function Latest(records: seq<Stored>, operation: string, name: string): Option<Record> {
    if records == [] then None
    else
      var last := records[|records| - 1].record;
      if last.operation == operation && last.name == name then Some(last)
      else Latest(records[..|records| - 1], operation, name)
  }

  /** `operation` holds `name`: it has a record for it, and the latest one is not retired. */
  predicate Holds(records: seq<Stored>, operation: string, name: string) {
    Latest(records, operation, name).Some? && Latest(records, operation, name).value.state != Retired
  }

  ghost predicate HeldByOther(records: seq<Stored>, operation: string, name: string) {
    exists other :: other != operation && Holds(records, other, name)
  }

  // ------------------------------------------------------------------------
  // Writing
  // ------------------------------------------------------------------------

  function Sealed(l: Ledger, r: Record): Stored
    requires l.activeKey in l.keys
  {
    Stored(r, l.generation + 1, l.activeKey,
           Signature(l.keys[l.activeKey], RecordPayload(r, l.generation + 1, l.activeKey)))
  }

  function Appended(l: Ledger, r: Record): Ledger
    requires l.activeKey in l.keys
  {
    l.(generation := l.generation + 1, records := l.records + [Sealed(l, r)])
  }

  /** Appends `rs` one write at a time: stops at an invalid record, or when `landed` writes have been made. */
  function AppendAll(l: Ledger, rs: seq<Record>, landed: nat): (r: (Ledger, Result<(), AuthorityError>))
    requires l.activeKey in l.keys
    ensures r.0.keys == l.keys && r.0.activeKey == l.activeKey && r.0.usedNonces == l.usedNonces
    decreases |rs|
  {
    if rs == [] then (l, Ok(()))
    else if !ValidRecord(rs[0]) || landed == 0 then (l, Err(StateError))
    else AppendAll(Appended(l, rs[0]), rs[1..], landed - 1)
  }

  /** The first ledger, with its freshly generated key. */
  function InitialLedger(keyId: KeyId, key: PrivateKey): Ledger {
    Ledger(0, [], map[keyId := key], keyId, [])
  }

  ghost function ReadFile(d: Disk): Result<Ledger, AuthorityError> {
    if d.file.Some? && Valid(d.file.value) then Ok(d.file.value) else Err(StateError)
  }

  /** A missing state file is acceptable only to the call that created the lock file. */
  ghost function ReadOrInitial(
    d: Disk, initializing: bool, keyId: KeyId, key: PrivateKey): Result<Ledger, AuthorityError>
  {
    if d.file.None? then (if initializing then Ok(InitialLedger(keyId, key)) else Err(StateError))
    else ReadFile(d)
  }

  function ContainerRecord(operation: string, name: string, dockerId: string, state: RecordState): Record {
    Record(operation, "container", name, dockerId, state)
  }

  // ------------------------------------------------------------------------
  // The operations
  // ------------------------------------------------------------------------

  /** `writes` says how many writes of the operation reach the disk before one fails. */
  datatype Command =
    | Reserve(operation: string, name: string)
    | Bind(operation: string, name: string, dockerId: string)
    | Activate(operation: string, name: string, dockerId: string)
    | Retire(operation: string, name: string, dockerId: string)
    | RetireAbsent(operation: string, name: string, expected: Option<string>)
    | Converge(operation: string, name: string, dockerId: string)
    | RotateKeys(keyId: KeyId, key: PrivateKey)
    | VerifyEvidence(evidence: Evidence, dockerId: string, now: int)

  /** One call: what it does, the key it would generate on a first write, and the writes that land. */
  datatype Call = Call(command: Command, freshKeyId: KeyId, freshKey: PrivateKey, writes: nat)

  datatype Answer = Done | Refused(error: AuthorityError) | Accepted | Rejected

  predicate Initializes(c: Command) { c.Reserve? || c.Converge? }

  predicate TransitionAllowed(latest: Option<Record>, dockerId: string, expected: RecordState) {
    latest.Some? && latest.value.state == expected && (latest.value.dockerId == "" || latest.value.dockerId == dockerId)
  }

  /** The records `converge` still has to write, given the latest one. */
  function ConvergeWrites(latest: Option<Record>, operation: string, name: string, dockerId: string)
    : Result<seq<Record>, AuthorityError>
  {
    var bound := ContainerRecord(operation, name, dockerId, Reserved);
    var active := ContainerRecord(operation, name, dockerId, Active);
    match latest
    case None => Ok([ContainerRecord(operation, name, "", Reserved), bound, active])
    case Some(r) =>
      if r.state == Reserved && r.dockerId == "" then Ok([bound, active])
      else if r.state == Reserved && r.dockerId == dockerId then Ok([active])
      else if r.kind != "container" || r.state != Active || r.dockerId != dockerId then Err(Conflict)
      else Ok([])
  }

  /** The records a command appends to `l`, or its refusal. */
  ghost function Writes(l: Ledger, c: Command): Result<seq<Record>, AuthorityError>
    requires !c.RotateKeys? && !c.VerifyEvidence?
  {
    var latest := Latest(l.records, c.operation, c.name);
    match c
    case Reserve(o, n) => Ok([ContainerRecord(o, n, "", Reserved)])
    case Bind(o, n, i) =>
      if TransitionAllowed(latest, i, Reserved) then Ok([ContainerRecord(o, n, i, Reserved)]) else Err(StateError)
    case Activate(o, n, i) =>
      if TransitionAllowed(latest, i, Reserved) then Ok([ContainerRecord(o, n, i, Active)]) else Err(StateError)
    case Retire(o, n, i) =>
      if TransitionAllowed(latest, i, Active) then Ok([ContainerRecord(o, n, i, Retired)]) else Err(StateError)
    case RetireAbsent(o, n, e) =>
      if latest.None? || latest.value.state == Reserved || (e.Some? && latest.value.dockerId != e.value)
      then Err(StateError)
      else if latest.value.state == Retired then Ok([])
      else Ok([ContainerRecord(o, n, latest.value.dockerId, Retired)])
    case Converge(o, n, i) =>
      if HeldByOther(l.records, o, n) then Err(Conflict) else ConvergeWrites(latest, o, n, i)
  }

  function Rotated(l: Ledger, keyId: KeyId, key: PrivateKey): Ledger {
    l.(keys := l.keys[keyId := key], activeKey := keyId)
  }

  /** Whether fresh, genuine, unused evidence is backed by an active record. */
  ghost predicate Acceptable(l: Ledger, e: Evidence, dockerId: string, now: int) {
    && e.dockerId == dockerId
    && e.keyId != "" && e.operation != "" && e.dockerId != "" && e.nonce != ""
    && e.schema == 1 && e.observedAt <= now < e.expiresAt
    && e.keyId in l.keys && e.nonce !in l.usedNonces
    && e.signature == Signature(l.keys[e.keyId], e.Payload())
    && exists s :: s in l.records && s.record.operation == e.operation
                   && s.record.dockerId == dockerId && s.record.state == Active
  }

  ghost function Apply(d: Disk, call: Call): (Disk, Answer) {
    var locked := d.(lock := true);
    match call.command
    case RotateKeys(keyId, key) =>
      (match ReadFile(d)
       case Err(e) => (locked, Refused(e))
       case Ok(l) => if call.writes == 0 then (locked, Refused(StateError))
                     else (locked.(file := Some(Rotated(l, keyId, key))), Done))
    case VerifyEvidence(e, dockerId, now) =>
      if !(e.dockerId == dockerId && e.keyId != "" && e.operation != "" && e.dockerId != "" && e.nonce != ""
           && e.schema == 1 && e.observedAt <= now < e.expiresAt)
      then (d, Rejected)
      else (match ReadFile(d)
            case Err(_) => (locked, Rejected)
            case Ok(l) =>
              if !Acceptable(l, e, dockerId, now) || call.writes == 0 then (locked, Rejected)
              else (locked.(file := Some(l.(usedNonces := l.usedNonces + [e.nonce]))), Accepted))
    case _ =>
      (match ReadOrInitial(d, Initializes(call.command) && !d.lock, call.freshKeyId, call.freshKey)
       case Err(e) => (locked, Refused(e))
       case Ok(l) =>
         match Writes(l, call.command)
         case Err(e) => (locked, Refused(e))
         case Ok(rs) => Committed(locked, l, rs, call.writes))
  }

  /** The disk after writing `rs` to `l`: unchanged when not even the first write lands. */
  ghost function Committed(d: Disk, l: Ledger, rs: seq<Record>, writes: nat): (Disk, Answer) {
    if l.activeKey !in l.keys then (d, Refused(StateError))
    else
      var (l', r) := AppendAll(l, rs, writes);
      (if l'.records == l.records then d else d.(file := Some(l')),
       if r.Ok? then Done else Refused(r.error))
  }

  ghost function Run(d: Disk, calls: seq<Call>): Disk {
    if calls == [] then d else Apply(Run(d, calls[..|calls| - 1]), calls[|calls| - 1]).0
  }

  // ------------------------------------------------------------------------
  // Every written ledger is accepted by the next read
  // ------------------------------------------------------------------------

  lemma AppendedStaysValid(l: Ledger, r: Record)
    requires Valid(l) && ValidRecord(r)
    ensures Valid(Appended(l, r))
  {
    assert forall i :: 0 <= i < |l.records| ==> l.records[i].generation <= l.generation;
  }

  lemma {:induction false} AppendAllStaysValid(l: Ledger, rs: seq<Record>, landed: nat)
    requires Valid(l)
    ensures Valid(AppendAll(l, rs, landed).0)
    decreases |rs|
  {
    if rs != [] && ValidRecord(rs[0]) && landed > 0 {
      AppendedStaysValid(l, rs[0]);
      AppendAllStaysValid(Appended(l, rs[0]), rs[1..], landed - 1);
    }
  }

  /** Rotation keeps the ledger readable exactly when the key id does not displace a key in use. */
  lemma RotationStaysValidIff(l: Ledger, keyId: KeyId, key: PrivateKey)
    requires Valid(l)
    ensures Valid(Rotated(l, keyId, key)) <==>
      (keyId in l.keys && l.keys[keyId] != key ==> forall s :: s in l.records ==> s.keyId != keyId)
  {
    var l' := Rotated(l, keyId, key);
    if Valid(l') && keyId in l.keys && l.keys[keyId] != key {
      forall s | s in l.records ensures s.keyId != keyId {
        var i :| 0 <= i < |l.records| && l.records[i] == s;
        assert GoodRecord(l.keys, l.records[i]) && GoodRecord(l'.keys, l'.records[i]);
      }
    }
    if keyId in l.keys && l.keys[keyId] != key ==> forall s :: s in l.records ==> s.keyId != keyId {
      forall i | 0 <= i < |l'.records| ensures GoodRecord(l'.keys, l'.records[i]) {
        assert GoodRecord(l.keys, l.records[i]) && l.records[i] in l.records;
      }
    }
  }

  ghost predicate Readable(d: Disk) { d.file.Some? ==> Valid(d.file.value) }

  /** Rotation draws a key id that is not in use (128 random bits in the source). */
  ghost predicate FreshKeyId(d: Disk, c: Command) {
    c.RotateKeys? && d.file.Some? ==> c.keyId !in d.file.value.keys
  }

  lemma ApplyStaysReadable(d: Disk, call: Call)
    requires Readable(d) && FreshKeyId(d, call.command)
    ensures Readable(Apply(d, call).0)
  {
    match call.command
    case RotateKeys(keyId, key) =>
      if d.file.Some? { RotationStaysValidIff(d.file.value, keyId, key); }
    case VerifyEvidence(_, _, _) =>
    case _ => WritingStaysReadable(d, call);
  }

  lemma WritingStaysReadable(d: Disk, call: Call)
    requires Readable(d) && !call.command.RotateKeys? && !call.command.VerifyEvidence?
    ensures Readable(Apply(d, call).0)
  {
    var read := ReadOrInitial(d, Initializes(call.command) && !d.lock, call.freshKeyId, call.freshKey);
    if read.Ok? && Writes(read.value, call.command).Ok? {
      AppendAllStaysValid(read.value, Writes(read.value, call.command).value, call.writes);
    }
  }

  /** From nothing, whatever is called and whichever writes fail, the next read accepts the file. */
  lemma {:induction false} RunStaysReadable(calls: seq<Call>)
    requires forall k :: 0 <= k < |calls| ==> FreshKeyId(Run(EMPTY, calls[..k]), calls[k].command)
    ensures Readable(Run(EMPTY, calls))
    decreases |calls|
  {
    if calls != [] {
      var before := calls[..|calls| - 1];
      forall k | 0 <= k < |before| ensures FreshKeyId(Run(EMPTY, before[..k]), before[k].command) {
        assert before[..k] == calls[..k];
      }
      RunStaysReadable(before);
      ApplyStaysReadable(Run(EMPTY, before), calls[|calls| - 1]);
    }
  }

  const EMPTY := Disk(false, None)

  // ------------------------------------------------------------------------
  // At most one holder per name; histories only move forward
  // ------------------------------------------------------------------------

  ghost predicate Exclusive(records: seq<Stored>) {
    forall name, a, b :: a != b && Holds(records, a, name) ==> !Holds(records, b, name)
  }

  function Rank(s: RecordState): nat {
    match s case Reserved => 0 case Active => 1 case Retired => 2
  }

  /** A later record of the same operation and name: further along, with the same id once there is one. */
  predicate Follows(a: Record, b: Record) {
    && (Rank(a.state) < Rank(b.state) || a.state == b.state == Reserved)
    && (a.dockerId != "" ==> b.dockerId == a.dockerId)
  }

  predicate SameHistory(a: Record, b: Record) { a.operation == b.operation && a.name == b.name }

  ghost predicate ForwardOnly(records: seq<Stored>) {
    forall i, j :: 0 <= i < j < |records| && SameHistory(records[i].record, records[j].record) ==>
      Follows(records[i].record, records[j].record)
  }

  lemma LatestAfter(records: seq<Stored>, s: Stored, operation: string, name: string)
    ensures Latest(records + [s], operation, name) ==
      if s.record.operation == operation && s.record.name == name
      then Some(s.record) else Latest(records, operation, name)
  {
    assert (records + [s])[..|records|] == records;
  }

  /** `Latest` is the last record of its history. */
  lemma {:induction false} LatestIsLast(records: seq<Stored>, operation: string, name: string) returns (k: nat)
    ensures Latest(records, operation, name).None? ==>
      forall i :: 0 <= i < |records| ==> records[i].record.operation != operation || records[i].record.name != name
    ensures Latest(records, operation, name).Some? ==>
      && k < |records| && records[k].record == Latest(records, operation, name).value
      && records[k].record.operation == operation && records[k].record.name == name
      && forall i :: k < i < |records| ==> records[i].record.operation != operation || records[i].record.name != name
    decreases |records|
  {
    k := 0;
    if records != [] {
      var last := records[|records| - 1].record;
      if last.operation == operation && last.name == name {
        k := |records| - 1;
      } else {
        k := LatestIsLast(records[..|records| - 1], operation, name);
      }
    }
  }

  /** Appending a record keeps custody exclusive exactly when it retires, or nobody else holds the name. */
  lemma AppendExclusiveIff(records: seq<Stored>, s: Stored)
    requires Exclusive(records)
    ensures Exclusive(records + [s]) <==>
      s.record.state == Retired || !HeldByOther(records, s.record.operation, s.record.name)
  {
    var o, n := s.record.operation, s.record.name;
    forall a, name ensures Holds(records + [s], a, name) <==>
      if a == o && name == n then s.record.state != Retired else Holds(records, a, name)
    {
      LatestAfter(records, s, a, name);
    }
    if s.record.state != Retired && HeldByOther(records, o, n) {
      var other :| other != o && Holds(records, other, n);
      assert Holds(records + [s], o, n) && Holds(records + [s], other, n);
    }
  }

  lemma AppendForwardOnlyIff(records: seq<Stored>, s: Stored)
    requires ForwardOnly(records)
    ensures ForwardOnly(records + [s]) <==>
      var latest := Latest(records, s.record.operation, s.record.name);
      latest.None? || Follows(latest.value, s.record)
  {
    var k := LatestIsLast(records, s.record.operation, s.record.name);
    var all := records + [s];
    if ForwardOnly(all) && Latest(records, s.record.operation, s.record.name).Some? {
      assert Follows(all[k].record, all[|records|].record);
    }
    if Latest(records, s.record.operation, s.record.name).Some? && Follows(records[k].record, s.record) {
      forall i | 0 <= i < |records| && SameHistory(records[i].record, s.record)
        ensures Follows(records[i].record, s.record)
      {
        if i < k { assert Follows(records[i].record, records[k].record); }
      }
    }
  }

  ghost predicate InOrder(latest: Option<Record>, rs: seq<Record>)
    decreases |rs|
  {
    rs == [] || ((latest.None? || Follows(latest.value, rs[0])) && InOrder(Some(rs[0]), rs[1..]))
  }

  lemma {:induction false} AppendAllKeepsCustody(
    l: Ledger, rs: seq<Record>, landed: nat, operation: string, name: string)
    requires l.activeKey in l.keys && Exclusive(l.records) && ForwardOnly(l.records)
    requires forall r :: r in rs ==> r.operation == operation && r.name == name
    requires (forall r :: r in rs ==> r.state == Retired) || !HeldByOther(l.records, operation, name)
    requires InOrder(Latest(l.records, operation, name), rs)
    ensures Exclusive(AppendAll(l, rs, landed).0.records) && ForwardOnly(AppendAll(l, rs, landed).0.records)
    decreases |rs|
  {
    if rs != [] && ValidRecord(rs[0]) && landed > 0 {
      var s := Sealed(l, rs[0]);
      AppendExclusiveIff(l.records, s);
      AppendForwardOnlyIff(l.records, s);
      LatestAfter(l.records, s, operation, name);
      forall other | other != operation
        ensures Holds(l.records + [s], other, name) <==> Holds(l.records, other, name)
      {
        LatestAfter(l.records, s, other, name);
      }
      AppendAllKeepsCustody(Appended(l, rs[0]), rs[1..], landed - 1, operation, name);
    }
  }

  function RecordsOn(d: Disk): seq<Stored> {
    if d.file.Some? then d.file.value.records else []
  }

  /** `reserve` does not look at other holders: its caller must bring a fresh operation and a free name. */
  ghost predicate ReserveIsSafe(records: seq<Stored>, c: Command) {
    c.Reserve? ==>
      && !HeldByOther(records, c.operation, c.name)
      && var latest := Latest(records, c.operation, c.name);
         latest.None? || (latest.value.state == Reserved && latest.value.dockerId == "")
  }

  lemma WritesKeepCustody(l: Ledger, c: Command)
    requires !c.RotateKeys? && !c.VerifyEvidence? && Exclusive(l.records) && ReserveIsSafe(l.records, c)
    requires Writes(l, c).Ok?
    ensures var rs := Writes(l, c).value;
      && (forall r :: r in rs ==> r.operation == c.operation && r.name == c.name)
      && ((forall r :: r in rs ==> r.state == Retired) || !HeldByOther(l.records, c.operation, c.name))
      && InOrder(Latest(l.records, c.operation, c.name), rs)
  {
    var latest := Latest(l.records, c.operation, c.name);
    var k := LatestIsLast(l.records, c.operation, c.name);
    var rs := Writes(l, c).value;
    if latest.Some? && latest.value.state != Retired {
      assert Holds(l.records, c.operation, c.name);
    }
    assert |rs| >= 1 ==> rs[1..] == [] || |rs| > 1;
    if |rs| == 2 { assert rs[1..] == [rs[1]]; }
    if |rs| == 3 {
      assert rs[1..] == [rs[1], rs[2]] && rs[1..][1..] == [rs[2]];
      assert InOrder(Some(rs[1]), [rs[2]]) && InOrder(Some(rs[0]), rs[1..]);
    }
  }

  lemma ApplyKeepsCustody(d: Disk, call: Call)
    requires Exclusive(RecordsOn(d)) && ForwardOnly(RecordsOn(d)) && ReserveIsSafe(RecordsOn(d), call.command)
    ensures Exclusive(RecordsOn(Apply(d, call).0)) && ForwardOnly(RecordsOn(Apply(d, call).0))
  {
    var c := call.command;
    if !c.RotateKeys? && !c.VerifyEvidence? {
      var read := ReadOrInitial(d, Initializes(c) && !d.lock, call.freshKeyId, call.freshKey);
      if read.Ok? && Writes(read.value, c).Ok? {
        assert read.value.records == RecordsOn(d);
        WritesKeepCustody(read.value, c);
        AppendAllKeepsCustody(read.value, Writes(read.value, c).value, call.writes, c.operation, c.name);
      }
    }
  }

  /**
   From an empty authority, over any sequence of calls with any writes failing:
   one holder per name at most, and every history only moves from reserved to
   active to retired with its container id fixed once it is known.
   */
  lemma {:induction false} CustodyIsExclusiveAndForward(calls: seq<Call>)
    requires forall k :: 0 <= k < |calls| ==> ReserveIsSafe(RecordsOn(Run(EMPTY, calls[..k])), calls[k].command)
    ensures Exclusive(RecordsOn(Run(EMPTY, calls))) && ForwardOnly(RecordsOn(Run(EMPTY, calls)))
    decreases |calls|
  {
    if calls != [] {
      var before := calls[..|calls| - 1];
      forall k | 0 <= k < |before| ensures ReserveIsSafe(RecordsOn(Run(EMPTY, before[..k])), before[k].command) {
        assert before[..k] == calls[..k];
      }
      CustodyIsExclusiveAndForward(before);
      ApplyKeepsCustody(Run(EMPTY, before), calls[|calls| - 1]);
    }
  }

  /** The safety condition on `reserve` is exact. */
  lemma ReserveKeepsCustodyIff(l: Ledger, operation: string, name: string)
    requires Valid(l) && Exclusive(l.records) && ForwardOnly(l.records)
    ensures var records := Appended(l, ContainerRecord(operation, name, "", Reserved)).records;
      (Exclusive(records) && ForwardOnly(records)) <==> ReserveIsSafe(l.records, Reserve(operation, name))
  {
    var s := Sealed(l, ContainerRecord(operation, name, "", Reserved));
    AppendExclusiveIff(l.records, s);
    AppendForwardOnlyIff(l.records, s);
  }

  // ------------------------------------------------------------------------
  // `converge` is resumable and locks the name
  // ------------------------------------------------------------------------

  lemma {:induction false} AppendAllInTwoRuns(l: Ledger, rs: seq<Record>, landed: nat)
    requires l.activeKey in l.keys && landed <= |rs| && forall r :: r in rs ==> ValidRecord(r)
    ensures AppendAll(l, rs, |rs|).1 == Ok(())
    ensures |AppendAll(l, rs, landed).0.records| == |l.records| + landed
    ensures AppendAll(AppendAll(l, rs, landed).0, rs[landed..], |rs| - landed) == AppendAll(l, rs, |rs|)
    decreases |rs|
  {
    if rs != [] {
      if landed == 0 {
        AppendAllInTwoRuns(Appended(l, rs[0]), rs[1..], 0);
      } else {
        AppendAllInTwoRuns(Appended(l, rs[0]), rs[1..], landed - 1);
        assert rs[1..][landed - 1..] == rs[landed..];
      }
    }
  }

  lemma {:induction false} LatestAfterAll(l: Ledger, rs: seq<Record>, landed: nat, operation: string, name: string)
    requires l.activeKey in l.keys && landed <= |rs|
    requires forall r :: r in rs ==> ValidRecord(r) && r.operation == operation && r.name == name
    ensures var records := AppendAll(l, rs, landed).0.records;
      && (landed == 0 ==> Latest(records, operation, name) == Latest(l.records, operation, name))
      && (landed > 0 ==> Latest(records, operation, name) == Some(rs[landed - 1]))
      && forall other :: other != operation ==> (Holds(records, other, name) <==> Holds(l.records, other, name))
    decreases |rs|
  {
    if landed > 0 {
      var s := Sealed(l, rs[0]);
      LatestAfter(l.records, s, operation, name);
      forall other | other != operation
        ensures Holds(l.records + [s], other, name) <==> Holds(l.records, other, name)
      {
        LatestAfter(l.records, s, other, name);
      }
      LatestAfterAll(Appended(l, rs[0]), rs[1..], landed - 1, operation, name);
    }
  }

  /** Each stage of `converge` leads to the next, and from the last one nothing is missing. */
  lemma RemainingStages(latest: Option<Record>, operation: string, name: string, dockerId: string, landed: nat)
    requires dockerId != "" && ConvergeWrites(latest, operation, name, dockerId).Ok?
    requires landed <= |ConvergeWrites(latest, operation, name, dockerId).value|
    ensures var rs := ConvergeWrites(latest, operation, name, dockerId).value;
      var latest' := if landed == 0 then latest else Some(rs[landed - 1]);
      ConvergeWrites(latest', operation, name, dockerId) == Ok(rs[landed..])
  {
    var rs := ConvergeWrites(latest, operation, name, dockerId).value;
    assert rs[|rs|..] == [];
    if |rs| == 3 { assert rs[1..] == [rs[1], rs[2]] && rs[2..] == [rs[2]]; }
    if |rs| == 2 { assert rs[1..] == [rs[1]]; }
    assert rs[0..] == rs;
  }

  /** After some of its writes, `converge` computes exactly the writes that are still missing. */
  lemma RemainingWrites(l: Ledger, operation: string, name: string, dockerId: string, landed: nat)
    requires l.activeKey in l.keys && operation != "" && name != "" && dockerId != ""
    requires Writes(l, Converge(operation, name, dockerId)).Ok?
    requires landed <= |Writes(l, Converge(operation, name, dockerId)).value|
    ensures var rs := Writes(l, Converge(operation, name, dockerId)).value;
      Writes(AppendAll(l, rs, landed).0, Converge(operation, name, dockerId)) == Ok(rs[landed..])
  {
    var rs := Writes(l, Converge(operation, name, dockerId)).value;
    LatestAfterAll(l, rs, landed, operation, name);
    RemainingStages(Latest(l.records, operation, name), operation, name, dockerId, landed);
  }

  function ConvergeCall(
    operation: string, name: string, dockerId: string, keyId: KeyId, key: PrivateKey, writes: nat): Call
  {
    Call(Converge(operation, name, dockerId), keyId, key, writes)
  }

  /**
   Interrupt a `converge` that would succeed after any number of its writes.
   The rerun completes the very ledger the uninterrupted call would have
   written, the id ends active, and every further rerun appends nothing --
   except in one case: on a brand-new authority whose first write never landed,
   the lock file alone remains and every rerun is refused.
   */
  lemma ConvergeIsResumable(
    d: Disk, operation: string, name: string, dockerId: string,
    keyId: KeyId, key: PrivateKey, keyId': KeyId, key': PrivateKey, landed: nat)
    requires Readable(d) && (d.file.None? ==> !d.lock)
    requires operation != "" && name != "" && dockerId != ""
    requires Apply(d, ConvergeCall(operation, name, dockerId, keyId, key, 3)).1 == Done
    ensures var full := Apply(d, ConvergeCall(operation, name, dockerId, keyId, key, 3));
      var broken := Apply(d, ConvergeCall(operation, name, dockerId, keyId, key, landed)).0;
      var rerun := Apply(broken, ConvergeCall(operation, name, dockerId, keyId', key', 3));
      && (rerun.1 == Done <==> d.file.Some? || landed > 0)
      && (rerun.1 == Done ==> rerun == full)
      && (rerun.1 != Done ==> rerun == (broken, Refused(StateError)))
      && Latest(RecordsOn(full.0), operation, name) == Some(ContainerRecord(operation, name, dockerId, Active))
      && forall n :: Apply(full.0, ConvergeCall(operation, name, dockerId, keyId', key', n)) == full
  {
    var l := ReadOrInitial(d, !d.lock, keyId, key).value;
    var rs := Writes(l, Converge(operation, name, dockerId)).value;
    var k := if landed <= |rs| then landed else |rs|;
    ConvergeEffect(d, l, rs, ConvergeCall(operation, name, dockerId, keyId, key, 3));
    ConvergeEffect(d, l, rs, ConvergeCall(operation, name, dockerId, keyId, key, landed));
    ConvergedIsActive(l, rs, operation, name, dockerId);
    var full := Apply(d, ConvergeCall(operation, name, dockerId, keyId, key, 3)).0;
    forall n ensures Apply(full, ConvergeCall(operation, name, dockerId, keyId', key', n)) == (full, Done) {
      ResumeAfter(d, l, rs, operation, name, dockerId, |rs|, ConvergeCall(operation, name, dockerId, keyId', key', n));
    }
    if d.file.Some? || landed > 0 {
      ResumeAfter(d, l, rs, operation, name, dockerId, k, ConvergeCall(operation, name, dockerId, keyId', key', 3));
    }
  }

  lemma ConvergedIsActive(l: Ledger, rs: seq<Record>, operation: string, name: string, dockerId: string)
    requires l.activeKey in l.keys && forall r :: r in rs ==> ValidRecord(r)
    requires ConvergeWrites(Latest(l.records, operation, name), operation, name, dockerId) == Ok(rs)
    ensures Latest(AppendAll(l, rs, |rs|).0.records, operation, name)
         == Some(ContainerRecord(operation, name, dockerId, Active))
  {
    LatestMatches(l.records, operation, name);
    ConvergeWritesEnd(Latest(l.records, operation, name), operation, name, dockerId, rs);
    LatestIsLastWrite(l, rs, operation, name);
  }

  lemma {:induction false} LatestMatches(records: seq<Stored>, operation: string, name: string)
    ensures var latest := Latest(records, operation, name);
      latest.Some? ==> latest.value.operation == operation && latest.value.name == name
    decreases |records|
  {
    if records != [] { LatestMatches(records[..|records| - 1], operation, name); }
  }

  /** What is missing ends with the activation; nothing is missing only when it is there. */
  lemma ConvergeWritesEnd(latest: Option<Record>, operation: string, name: string, dockerId: string, rs: seq<Record>)
    requires ConvergeWrites(latest, operation, name, dockerId) == Ok(rs)
    requires latest.Some? ==> latest.value.operation == operation && latest.value.name == name
    ensures var active := ContainerRecord(operation, name, dockerId, Active);
      if rs == [] then latest == Some(active) else rs[|rs| - 1] == active
    ensures forall r :: r in rs ==> r.operation == operation && r.name == name
  {
  }

  lemma {:induction false} LatestIsLastWrite(l: Ledger, rs: seq<Record>, operation: string, name: string)
    requires l.activeKey in l.keys
    requires forall r :: r in rs ==> ValidRecord(r) && r.operation == operation && r.name == name
    ensures Latest(AppendAll(l, rs, |rs|).0.records, operation, name)
         == if rs == [] then Latest(l.records, operation, name) else Some(rs[|rs| - 1])
    decreases |rs|
  {
    if rs != [] {
      LatestAfter(l.records, Sealed(l, rs[0]), operation, name);
      LatestIsLastWrite(Appended(l, rs[0]), rs[1..], operation, name);
    }
  }

  /** What a call of `converge` does to the disk, by the number of its writes that land. */
  lemma ConvergeEffect(d: Disk, l: Ledger, rs: seq<Record>, call: Call)
    requires call.command.Converge? && forall r :: r in rs ==> ValidRecord(r)
    requires ReadOrInitial(d, !d.lock, call.freshKeyId, call.freshKey) == Ok(l) && l.activeKey in l.keys
    requires Writes(l, call.command) == Ok(rs)
    ensures var k := if call.writes <= |rs| then call.writes else |rs|;
      Apply(d, call) == (Disk(true, if k == 0 then d.file else Some(AppendAll(l, rs, k).0)),
                         if k == |rs| then Done else Refused(StateError))
  {
    var k := if call.writes <= |rs| then call.writes else |rs|;
    AppendAllCapped(l, rs, call.writes);
    AppendAllInTwoRuns(l, rs, k);
    AppendAllStops(l, rs, k);
  }

  lemma AppendOne(l: Ledger, r: Record, writes: nat)
    requires l.activeKey in l.keys
    ensures AppendAll(l, [r], writes)
         == if ValidRecord(r) && writes > 0 then (Appended(l, r), Ok(())) else (l, Err(StateError))
  {
    assert [r][1..] == [];
  }

  lemma AppendFirst(l: Ledger, r: Record, rest: seq<Record>, writes: nat)
    requires l.activeKey in l.keys
    ensures AppendAll(l, [r] + rest, writes)
         == if ValidRecord(r) && writes > 0 then AppendAll(Appended(l, r), rest, writes - 1) else (l, Err(StateError))
    ensures |Appended(l, r).records| == |l.records| + 1
  {
    assert ([r] + rest)[1..] == rest;
  }

  lemma {:induction false} AppendAllStops(l: Ledger, rs: seq<Record>, landed: nat)
    requires l.activeKey in l.keys && landed <= |rs| && forall r :: r in rs ==> ValidRecord(r)
    ensures AppendAll(l, rs, landed).1 == if landed == |rs| then Ok(()) else Err(StateError)
    decreases |rs|
  {
    if rs != [] && landed > 0 { AppendAllStops(Appended(l, rs[0]), rs[1..], landed - 1); }
  }

  /** Resuming from the disk on which `k` of the writes `rs` have landed. */
  lemma ResumeAfter(
    d: Disk, l: Ledger, rs: seq<Record>, operation: string, name: string, dockerId: string, k: nat, call: Call)
    requires Valid(l) && k <= |rs| && forall r :: r in rs ==> ValidRecord(r)
    requires operation != "" && name != "" && dockerId != ""
    requires Writes(l, Converge(operation, name, dockerId)) == Ok(rs)
    requires call.command == Converge(operation, name, dockerId)
    requires call.writes >= 3 || k == |rs|
    requires d.file == Some(l) || k > 0
    ensures Apply(Disk(true, if k == 0 then d.file else Some(AppendAll(l, rs, k).0)), call)
         == (Disk(true, if |rs| == 0 then d.file else Some(AppendAll(l, rs, |rs|).0)), Done)
  {
    var l' := AppendAll(l, rs, k).0;
    RemainderCompletes(l, rs, operation, name, dockerId, k);
    var left := Disk(true, if k == 0 then d.file else Some(l'));
    assert left.file == Some(l');
    ResumeFrom(left, l', rs[k..], call);
  }

  /** What has been written is valid, and writing the rest completes it. */
  lemma RemainderCompletes(l: Ledger, rs: seq<Record>, operation: string, name: string, dockerId: string, k: nat)
    requires Valid(l) && k <= |rs| && forall r :: r in rs ==> ValidRecord(r)
    requires operation != "" && name != "" && dockerId != ""
    requires Writes(l, Converge(operation, name, dockerId)) == Ok(rs)
    ensures var l' := AppendAll(l, rs, k).0;
      && Valid(l') && |rs| <= 3 && (k == 0 ==> l' == l)
      && Writes(l', Converge(operation, name, dockerId)) == Ok(rs[k..])
      && AppendAll(l', rs[k..], |rs| - k) == AppendAll(l, rs, |rs|)
  {
    AppendAllStaysValid(l, rs, k);
    RemainingWrites(l, operation, name, dockerId, k);
    AppendAllInTwoRuns(l, rs, k);
  }

  /** A call that has writes enough for all that is missing completes. */
  lemma ResumeFrom(d: Disk, l: Ledger, rest: seq<Record>, call: Call)
    requires d.lock && d.file == Some(l) && Valid(l) && forall r :: r in rest ==> ValidRecord(r)
    requires call.command.Converge? && Writes(l, call.command) == Ok(rest) && call.writes >= |rest|
    ensures Apply(d, call) == (Disk(true, if |rest| == 0 then d.file else Some(AppendAll(l, rest, |rest|).0)), Done)
  {
    ConvergeEffect(d, l, rest, call);
  }

  /** Writes beyond the number of records make no difference. */
  lemma {:induction false} AppendAllCapped(l: Ledger, rs: seq<Record>, landed: nat)
    requires l.activeKey in l.keys && forall r :: r in rs ==> ValidRecord(r)
    ensures landed >= |rs| ==> AppendAll(l, rs, landed) == AppendAll(l, rs, |rs|)
    decreases |rs|
  {
    if rs != [] && landed > 0 { AppendAllCapped(Appended(l, rs[0]), rs[1..], landed - 1); }
  }

  /** Once an operation holds a name, every other operation converging it is refused and writes nothing. */
  lemma HeldNameRefusesOthers(d: Disk, operation: string, other: string, name: string, call: Call)
    requires Readable(d) && d.file.Some? && d.lock
    requires Holds(RecordsOn(d), operation, name) && other != operation
    requires call.command.Converge? && call.command.operation == other && call.command.name == name
    ensures Apply(d, call) == (d, Refused(Conflict))
  {
  }

  lemma ConvergeRecordsHold(
    latest: Option<Record>, rs: seq<Record>, operation: string, name: string, dockerId: string)
    requires ConvergeWrites(latest, operation, name, dockerId) == Ok(rs)
    ensures forall r :: r in rs ==> r.operation == operation && r.name == name && r.state != Retired
    ensures rs == [] ==> latest.Some? && latest.value.state == Active
  {
  }

  lemma HoldsAfterWrites(l: Ledger, rs: seq<Record>, k: nat, operation: string, name: string, dockerId: string)
    requires Valid(l) && k <= |rs| && (rs == [] || k > 0) && forall r :: r in rs ==> ValidRecord(r)
    requires Writes(l, Converge(operation, name, dockerId)) == Ok(rs)
    ensures Holds(AppendAll(l, rs, k).0.records, operation, name) && Valid(AppendAll(l, rs, k).0)
  {
    ConvergeRecordsHold(Latest(l.records, operation, name), rs, operation, name, dockerId);
    LatestAfterAll(l, rs, k, operation, name);
    AppendAllStaysValid(l, rs, k);
    assert k > 0 ==> rs[k - 1] in rs;
  }

  /** After at least one write of an interrupted `converge`, no other operation can take the name. */
  lemma InterruptedConvergeKeepsName(
    d: Disk, operation: string, name: string, dockerId: string, keyId: KeyId, key: PrivateKey, landed: nat,
    other: string, otherId: string, writes: nat)
    requires Readable(d) && (d.file.None? ==> !d.lock) && landed > 0
    requires operation != "" && name != "" && dockerId != "" && other != operation
    requires Apply(d, ConvergeCall(operation, name, dockerId, keyId, key, 3)).1 == Done
    ensures var broken := Apply(d, ConvergeCall(operation, name, dockerId, keyId, key, landed)).0;
      Apply(broken, ConvergeCall(other, name, otherId, keyId, key, writes)) == (broken, Refused(Conflict))
  {
    var l := ReadOrInitial(d, !d.lock, keyId, key).value;
    var rs := Writes(l, Converge(operation, name, dockerId)).value;
    var k := if landed <= |rs| then landed else |rs|;
    ConvergeEffect(d, l, rs, ConvergeCall(operation, name, dockerId, keyId, key, landed));
    HoldsAfterWrites(l, rs, k, operation, name, dockerId);
    var broken := Disk(true, if k == 0 then d.file else Some(AppendAll(l, rs, k).0));
    HeldNameRefusesOthers(broken, operation, other, name, ConvergeCall(other, name, otherId, keyId, key, writes));
  }

  // ------------------------------------------------------------------------
  // Calls on other names do not disturb an interrupted `converge`
  // ------------------------------------------------------------------------

  predicate Concerns(c: Command, name: string) {
    !c.RotateKeys? && !c.VerifyEvidence? && c.name == name
  }

  lemma WritesAreNamed(l: Ledger, c: Command)
    requires !c.RotateKeys? && !c.VerifyEvidence? && Writes(l, c).Ok?
    ensures forall r :: r in Writes(l, c).value ==> r.operation == c.operation && r.name == c.name
  {
    LatestMatches(l.records, c.operation, c.name);
    if c.Converge? {
      ConvergeWritesEnd(Latest(l.records, c.operation, c.name), c.operation, c.name, c.dockerId, Writes(l, c).value);
    }
  }

  lemma {:induction false} OtherRecordsKeepLatest(
    l: Ledger, rs: seq<Record>, landed: nat, operation: string, name: string)
    requires l.activeKey in l.keys && forall r :: r in rs ==> r.name != name
    ensures Latest(AppendAll(l, rs, landed).0.records, operation, name) == Latest(l.records, operation, name)
    decreases |rs|
  {
    if rs != [] && ValidRecord(rs[0]) && landed > 0 {
      LatestAfter(l.records, Sealed(l, rs[0]), operation, name);
      OtherRecordsKeepLatest(Appended(l, rs[0]), rs[1..], landed - 1, operation, name);
    }
  }

  lemma OtherCallKeepsLatest(d: Disk, call: Call, operation: string, name: string)
    requires !Concerns(call.command, name)
    ensures Latest(RecordsOn(Apply(d, call).0), operation, name) == Latest(RecordsOn(d), operation, name)
    ensures (d.file.Some? ==> Apply(d, call).0.file.Some?) && (d.lock ==> Apply(d, call).0.lock)
  {
    var c := call.command;
    if !c.RotateKeys? && !c.VerifyEvidence? {
      var read := ReadOrInitial(d, Initializes(c) && !d.lock, call.freshKeyId, call.freshKey);
      if read.Ok? && Writes(read.value, c).Ok? && read.value.activeKey in read.value.keys {
        WritesAreNamed(read.value, c);
        OtherRecordsKeepLatest(read.value, Writes(read.value, c).value, call.writes, operation, name);
      }
    }
  }

  /** Calls that do not concern `name` leave all that is known of it, and the file readable. */
  lemma {:induction false} OtherCallsKeepName(d: Disk, calls: seq<Call>, name: string)
    requires Readable(d) && d.file.Some? && d.lock
    requires forall call :: call in calls ==> !Concerns(call.command, name)
    requires forall k :: 0 <= k < |calls| ==> FreshKeyId(Run(d, calls[..k]), calls[k].command)
    ensures var u := Run(d, calls);
      && Readable(u) && u.file.Some? && u.lock
      && forall operation :: Latest(RecordsOn(u), operation, name) == Latest(RecordsOn(d), operation, name)
    decreases |calls|
  {
    if calls != [] {
      var before, call := calls[..|calls| - 1], calls[|calls| - 1];
      forall k | 0 <= k < |before| ensures FreshKeyId(Run(d, before[..k]), before[k].command) {
        assert before[..k] == calls[..k];
      }
      OtherCallsKeepName(d, before, name);
      ApplyStaysReadable(Run(d, before), call);
      forall operation
        ensures Latest(RecordsOn(Run(d, calls)), operation, name) == Latest(RecordsOn(d), operation, name)
      {
        OtherCallKeepsLatest(Run(d, before), call, operation, name);
      }
      OtherCallKeepsLatest(Run(d, before), call, "", name);
    }
  }

  /** A `converge` with room for its writes completes, and is then a no-op. */
  lemma ConvergeCompletes(d: Disk, l: Ledger, rest: seq<Record>, operation: string, name: string, dockerId: string,
    keyId: KeyId, key: PrivateKey)
    requires d.lock && d.file == Some(l) && Valid(l) && operation != "" && name != "" && dockerId != ""
    requires Writes(l, Converge(operation, name, dockerId)) == Ok(rest)
    ensures var done := Apply(d, ConvergeCall(operation, name, dockerId, keyId, key, 3));
      && done.1 == Done
      && Latest(RecordsOn(done.0), operation, name) == Some(ContainerRecord(operation, name, dockerId, Active))
      && forall n :: Apply(done.0, ConvergeCall(operation, name, dockerId, keyId, key, n)) == done
  {
    WritesAreNamed(l, Converge(operation, name, dockerId));
    assert |rest| <= 3 && forall r :: r in rest ==> ValidRecord(r);
    ResumeFrom(d, l, rest, ConvergeCall(operation, name, dockerId, keyId, key, 3));
    ConvergedIsActive(l, rest, operation, name, dockerId);
    LatestAfterAll(l, rest, |rest|, operation, name);
    AppendAllStaysValid(l, rest, |rest|);
    var l' := AppendAll(l, rest, |rest|).0;
    assert !HeldByOther(l'.records, operation, name);
    var done := Apply(d, ConvergeCall(operation, name, dockerId, keyId, key, 3)).0;
    assert done == Disk(true, Some(l'));
    forall n ensures Apply(done, ConvergeCall(operation, name, dockerId, keyId, key, n)) == (done, Done) {
      assert Writes(l', Converge(operation, name, dockerId)) == Ok([]);
      ResumeFrom(done, l', [], ConvergeCall(operation, name, dockerId, keyId, key, n));
    }
  }

  /**
   Interrupt a `converge` after some of its writes and let any calls on other
   names, rotations and verifications follow: the rerun still ends with the id
   active, and further reruns append nothing.
   */
  lemma ConvergeSurvivesOtherCalls(
    d: Disk, operation: string, name: string, dockerId: string, keyId: KeyId, key: PrivateKey, landed: nat,
    calls: seq<Call>, keyId': KeyId, key': PrivateKey)
    requires Readable(d) && (d.file.None? ==> !d.lock) && (d.file.Some? || landed > 0)
    requires operation != "" && name != "" && dockerId != ""
    requires Apply(d, ConvergeCall(operation, name, dockerId, keyId, key, 3)).1 == Done
    requires forall call :: call in calls ==> !Concerns(call.command, name)
    requires var broken := Apply(d, ConvergeCall(operation, name, dockerId, keyId, key, landed)).0;
      forall k :: 0 <= k < |calls| ==> FreshKeyId(Run(broken, calls[..k]), calls[k].command)
    ensures var broken := Apply(d, ConvergeCall(operation, name, dockerId, keyId, key, landed)).0;
      var rerun := Apply(Run(broken, calls), ConvergeCall(operation, name, dockerId, keyId', key', 3));
      && rerun.1 == Done
      && Latest(RecordsOn(rerun.0), operation, name) == Some(ContainerRecord(operation, name, dockerId, Active))
      && forall n :: Apply(rerun.0, ConvergeCall(operation, name, dockerId, keyId', key', n)) == rerun
  {
    var l, rest := InterruptedConverge(d, operation, name, dockerId, keyId, key, landed);
    ResumeAfterOthers(l, rest, calls, operation, name, dockerId, keyId', key');
  }

  lemma ResumeAfterOthers(
    l: Ledger, rest: seq<Record>, calls: seq<Call>, operation: string, name: string, dockerId: string,
    keyId: KeyId, key: PrivateKey)
    requires Valid(l) && operation != "" && name != "" && dockerId != ""
    requires Writes(l, Converge(operation, name, dockerId)) == Ok(rest)
    requires forall call :: call in calls ==> !Concerns(call.command, name)
    requires forall k :: 0 <= k < |calls| ==> FreshKeyId(Run(Disk(true, Some(l)), calls[..k]), calls[k].command)
    ensures var rerun := Apply(Run(Disk(true, Some(l)), calls), ConvergeCall(operation, name, dockerId, keyId, key, 3));
      && rerun.1 == Done
      && Latest(RecordsOn(rerun.0), operation, name) == Some(ContainerRecord(operation, name, dockerId, Active))
      && forall n :: Apply(rerun.0, ConvergeCall(operation, name, dockerId, keyId, key, n)) == rerun
  {
    var d := Disk(true, Some(l));
    OtherCallsKeepName(d, calls, name);
    var u := Run(d, calls);
    assert RecordsOn(u) == u.file.value.records && RecordsOn(d) == l.records;
    SameNameSameWrites(l, u.file.value, operation, name, dockerId);
    ConvergeCompletes(u, u.file.value, rest, operation, name, dockerId, keyId, key);
  }

  /** The ledger that an interrupted `converge` leaves, and what is still missing from it. */
  lemma InterruptedConverge(
    d: Disk, operation: string, name: string, dockerId: string, keyId: KeyId, key: PrivateKey, landed: nat)
    returns (l: Ledger, rest: seq<Record>)
    requires Readable(d) && (d.file.None? ==> !d.lock) && (d.file.Some? || landed > 0)
    requires operation != "" && name != "" && dockerId != ""
    requires Apply(d, ConvergeCall(operation, name, dockerId, keyId, key, 3)).1 == Done
    ensures Apply(d, ConvergeCall(operation, name, dockerId, keyId, key, landed)).0 == Disk(true, Some(l))
    ensures Valid(l) && Writes(l, Converge(operation, name, dockerId)) == Ok(rest)
  {
    var l0 := ReadOrInitial(d, !d.lock, keyId, key).value;
    var rs := Writes(l0, Converge(operation, name, dockerId)).value;
    var k := if landed <= |rs| then landed else |rs|;
    ConvergeEffect(d, l0, rs, ConvergeCall(operation, name, dockerId, keyId, key, landed));
    RemainderCompletes(l0, rs, operation, name, dockerId, k);
    l, rest := AppendAll(l0, rs, k).0, rs[k..];
  }

  lemma SameNameSameWrites(l: Ledger, m: Ledger, operation: string, name: string, dockerId: string)
    requires forall o :: Latest(m.records, o, name) == Latest(l.records, o, name)
    ensures Writes(m, Converge(operation, name, dockerId)) == Writes(l, Converge(operation, name, dockerId))
  {
    assert forall o :: Holds(m.records, o, name) <==> Holds(l.records, o, name);
  }

  // ------------------------------------------------------------------------
  // Evidence
  // ------------------------------------------------------------------------

  function Issued(
    l: Ledger, operation: string, dockerId: string, nonce: string, observedAt: int, expiresAt: int): Evidence
    requires l.activeKey in l.keys
  {
    Evidence(1, l.activeKey, operation, dockerId, nonce, observedAt, expiresAt,
             Signature(l.keys[l.activeKey],
                       EvidencePayload(1, l.activeKey, operation, dockerId, nonce, observedAt, expiresAt)))
  }

  ghost function AcceptedNonces(d: Disk, calls: seq<Call>): seq<string>
    decreases |calls|
  {
    if calls == [] then [] else
      var before, call := calls[..|calls| - 1], calls[|calls| - 1];
      AcceptedNonces(d, before)
      + (if Apply(Run(d, before), call).1 == Answer.Accepted then [call.command.evidence.nonce] else [])
  }

  function UsedNonces(d: Disk): seq<string> {
    if d.file.Some? then d.file.value.usedNonces else []
  }

  lemma NonceStep(d: Disk, call: Call)
    ensures var (d', a) := Apply(d, call);
      if a == Answer.Accepted then
        && call.command.VerifyEvidence? && call.command.evidence.nonce !in UsedNonces(d)
        && UsedNonces(d') == UsedNonces(d) + [call.command.evidence.nonce]
      else UsedNonces(d') == UsedNonces(d)
  {
  }

  /** Over any run, with any writes failing and keys rotated at will, no nonce is accepted twice. */
  lemma {:induction false} NoncesAreAcceptedOnce(d: Disk, calls: seq<Call>)
    ensures UsedNonces(Run(d, calls)) == UsedNonces(d) + AcceptedNonces(d, calls)
    ensures forall i, j :: 0 <= i < j < |AcceptedNonces(d, calls)| ==>
      AcceptedNonces(d, calls)[i] != AcceptedNonces(d, calls)[j]
    ensures forall n :: n in AcceptedNonces(d, calls) ==> n !in UsedNonces(d)
    decreases |calls|
  {
    if calls != [] {
      var before, call := calls[..|calls| - 1], calls[|calls| - 1];
      NoncesAreAcceptedOnce(d, before);
      NonceStep(Run(d, before), call);
    }
  }

  /** Evidence for an active record is accepted within its window, also after a key rotation, and only once. */
  lemma IssuedEvidenceIsAcceptedOnce(
    l: Ledger, operation: string, dockerId: string, nonce: string, observedAt: int, expiresAt: int, now: int,
    keyId: KeyId, key: PrivateKey, i: nat)
    requires Valid(l) && l.activeKey != "" && keyId !in l.keys
    requires operation != "" && dockerId != "" && nonce != "" && observedAt <= now < expiresAt
    requires nonce !in l.usedNonces
    requires i < |l.records| && l.records[i].record.state == Active
      && l.records[i].record.operation == operation && l.records[i].record.dockerId == dockerId
    ensures var e := Issued(l, operation, dockerId, nonce, observedAt, expiresAt);
      var check := Call(VerifyEvidence(e, dockerId, now), "", "", 1);
      var rotated := Disk(true, Some(Rotated(l, keyId, key)));
      && Apply(Disk(true, Some(l)), check).1 == Answer.Accepted
      && Apply(rotated, check).1 == Answer.Accepted
      && Apply(Apply(rotated, check).0, check) == (Apply(rotated, check).0, Rejected)
  {
    var e := Issued(l, operation, dockerId, nonce, observedAt, expiresAt);
    RotationStaysValidIff(l, keyId, key);
    assert l.records[i] in l.records;
    assert Acceptable(l, e, dockerId, now) && Acceptable(Rotated(l, keyId, key), e, dockerId, now);
  }

  // ------------------------------------------------------------------------
  // What accepted evidence says about the present
  // ------------------------------------------------------------------------

  predicate ActiveFor(r: Record, operation: string, dockerId: string) {
    r.operation == operation && r.dockerId == dockerId && r.state == Active
  }

  /** Some history of `operation` now stands at an active record for the container. */
  ghost predicate StillActive(records: seq<Stored>, operation: string, dockerId: string) {
    exists name :: StillActiveAs(records, operation, name, dockerId)
  }

  predicate StillActiveAs(records: seq<Stored>, operation: string, name: string, dockerId: string) {
    var latest := Latest(records, operation, name);
    latest.Some? && ActiveFor(latest.value, operation, dockerId)
  }

  /** Record `i` makes the container active, and nothing was retired in its history since. */
  ghost predicate UnretiredAt(records: seq<Stored>, i: nat, operation: string, dockerId: string)
    requires i < |records|
  {
    && ActiveFor(records[i].record, operation, dockerId)
    && forall j :: i < j < |records| && SameHistory(records[i].record, records[j].record) ==>
         records[j].record.state != Retired
  }

  /** In a history that only moves forward, an active record is the latest one until a retired one follows. */
  lemma StillActiveIff(records: seq<Stored>, operation: string, dockerId: string)
    requires ForwardOnly(records)
    ensures StillActive(records, operation, dockerId) <==>
      exists i: nat :: i < |records| && UnretiredAt(records, i, operation, dockerId)
  {
    if name :| StillActiveAs(records, operation, name, dockerId) {
      var k := LatestIsLast(records, operation, name);
      assert UnretiredAt(records, k, operation, dockerId);
    }
    if i: nat :| i < |records| && UnretiredAt(records, i, operation, dockerId) {
      var k := LatestIsLast(records, operation, records[i].record.name);
      assert i < k ==> Follows(records[i].record, records[k].record);
      assert StillActiveAs(records, operation, records[i].record.name, dockerId);
    }
  }

  /**
   Verification looks for an active record anywhere in the log.  So accepted
   evidence speaks for a container that is active now exactly when one of its
   active records has not been retired since.
   */
  lemma AcceptedIsCurrentIff(calls: seq<Call>, check: Call)
    requires forall k :: 0 <= k < |calls| ==> ReserveIsSafe(RecordsOn(Run(EMPTY, calls[..k])), calls[k].command)
    requires check.command.VerifyEvidence? && Apply(Run(EMPTY, calls), check).1 == Answer.Accepted
    ensures var records, e := RecordsOn(Run(EMPTY, calls)), check.command.evidence;
      && (exists i: nat :: i < |records| && ActiveFor(records[i].record, e.operation, e.dockerId))
      && (StillActive(records, e.operation, e.dockerId) <==>
            exists i: nat :: i < |records| && UnretiredAt(records, i, e.operation, e.dockerId))
  {
    var records, e := RecordsOn(Run(EMPTY, calls)), check.command.evidence;
    CustodyIsExclusiveAndForward(calls);
    StillActiveIff(records, e.operation, e.dockerId);
    var s :| s in records && ActiveFor(s.record, e.operation, e.dockerId);
  }

  lemma RetireEffect(l: Ledger, operation: string, name: string, dockerId: string)
    requires Valid(l) && operation != "" && name != "" && dockerId != ""
    requires StillActiveAs(l.records, operation, name, dockerId)
    ensures Apply(Disk(true, Some(l)), Call(Retire(operation, name, dockerId), "", "", 1))
         == (Disk(true, Some(Appended(l, ContainerRecord(operation, name, dockerId, Retired)))), Done)
  {
    AppendOne(l, ContainerRecord(operation, name, dockerId, Retired), 1);
  }

  lemma RetiredIsInactive(records: seq<Stored>, s: Stored, operation: string, name: string, dockerId: string)
    requires SameHistory(s.record, ContainerRecord(operation, name, dockerId, Retired)) && s.record.state == Retired
    requires forall other :: other != name ==> !StillActiveAs(records, operation, other, dockerId)
    ensures !StillActive(records + [s], operation, dockerId)
  {
    forall other ensures !StillActiveAs(records + [s], operation, other, dockerId) {
      LatestAfter(records, s, operation, other);
      assert other == name || !StillActiveAs(records, operation, other, dockerId);
    }
  }

  lemma AppendingKeepsAcceptance(l: Ledger, r: Record, e: Evidence, dockerId: string, now: int)
    requires Valid(l) && ValidRecord(r) && Acceptable(l, e, dockerId, now)
    ensures Apply(Disk(true, Some(Appended(l, r))), Call(VerifyEvidence(e, dockerId, now), "", "", 1)).1
         == Answer.Accepted
  {
    AppendedStaysValid(l, r);
    var active :| active in l.records && ActiveFor(active.record, e.operation, dockerId);
    assert active in Appended(l, r).records;
    assert Acceptable(Appended(l, r), e, dockerId, now);
  }

  /** Retiring the one active record of a container leaves its evidence acceptable. */
  lemma RetiringKeepsEvidence(l: Ledger, operation: string, name: string, dockerId: string, e: Evidence, now: int)
    requires Valid(l) && operation != "" && name != "" && dockerId != ""
    requires StillActiveAs(l.records, operation, name, dockerId)
    requires forall other :: other != name ==> !StillActiveAs(l.records, operation, other, dockerId)
    requires e.operation == operation && Acceptable(l, e, dockerId, now)
    ensures var (after, answer) := Apply(Disk(true, Some(l)), Call(Retire(operation, name, dockerId), "", "", 1));
      && answer == Done && !StillActive(RecordsOn(after), operation, dockerId)
      && Apply(after, Call(VerifyEvidence(e, dockerId, now), "", "", 1)).1 == Answer.Accepted
  {
    var retired := ContainerRecord(operation, name, dockerId, Retired);
    RetireEffect(l, operation, name, dockerId);
    RetiredIsInactive(l.records, Sealed(l, retired), operation, name, dockerId);
    AppendingKeepsAcceptance(l, retired, e, dockerId, now);
  }

  /** The ledger of a first `converge`: one name, active, signed with the one key. */
  lemma FirstConverge(operation: string, name: string, dockerId: string, keyId: KeyId, key: PrivateKey)
    returns (l: Ledger)
    requires operation != "" && name != "" && dockerId != ""
    ensures Apply(EMPTY, ConvergeCall(operation, name, dockerId, keyId, key, 3)).0 == Disk(true, Some(l))
    ensures Valid(l) && l.keys == map[keyId := key] && l.activeKey == keyId && l.usedNonces == []
    ensures StillActiveAs(l.records, operation, name, dockerId)
    ensures forall other :: other != name ==> !StillActiveAs(l.records, operation, other, dockerId)
  {
    var l0, rs := InitialLedger(keyId, key), ConvergeWrites(None, operation, name, dockerId).value;
    l := AppendAll(l0, rs, 3).0;
    ConvergeEffect(EMPTY, l0, rs, ConvergeCall(operation, name, dockerId, keyId, key, 3));
    AppendAllStaysValid(l0, rs, 3);
    ConvergedIsActive(l0, rs, operation, name, dockerId);
    forall other | other != name ensures !StillActiveAs(l.records, operation, other, dockerId) {
      OtherRecordsKeepLatest(l0, rs, 3, operation, other);
    }
  }

  /** From nothing: converge, retire, and evidence for the container is still accepted. */
  lemma RetiredEvidenceIsAccepted(
    operation: string, name: string, dockerId: string, keyId: KeyId, key: PrivateKey, nonce: string, now: nat)
    requires operation != "" && name != "" && dockerId != "" && keyId != "" && nonce != ""
    ensures var active := Apply(EMPTY, ConvergeCall(operation, name, dockerId, keyId, key, 3)).0;
      var retired := Apply(active, Call(Retire(operation, name, dockerId), "", "", 1)).0;
      && active.file.Some? && keyId in active.file.value.keys && active.file.value.activeKey == keyId
      && !StillActive(RecordsOn(retired), operation, dockerId)
      && var e := Issued(active.file.value, operation, dockerId, nonce, now, now + 1);
         Apply(retired, Call(VerifyEvidence(e, dockerId, now), "", "", 1)).1 == Answer.Accepted
  {
    var l := FirstConverge(operation, name, dockerId, keyId, key);
    var e := Issued(l, operation, dockerId, nonce, now, now + 1);
    var k := LatestIsLast(l.records, operation, name);
    assert l.records[k] in l.records && Acceptable(l, e, dockerId, now);
    RetiringKeepsEvidence(l, operation, name, dockerId, e, now);
  }

  // ------------------------------------------------------------------------
  // The authority
  // ------------------------------------------------------------------------

  class LocalOwnershipAuthority {
    var lockExists: bool
    var file: Option<Ledger>

    ghost function OnDisk(): Disk reads this { Disk(lockExists, file) }

    constructor ()
      ensures OnDisk() == EMPTY
    {
      lockExists, file := false, None;
    }

    /** One pass with a running highest generation. */
    static method ValidateState(l: Ledger) returns (ok: bool)
      ensures ok <==> Valid(l)
    {
      if l.activeKey !in l.keys { return false; }
      var highest := 0;
      for i := 0 to |l.records|
        invariant forall j :: 0 <= j < i ==> GoodRecord(l.keys, l.records[j]) && l.records[j].generation > 0
        invariant forall j, k :: 0 <= j < k < i ==> l.records[j].generation < l.records[k].generation
        invariant highest == if i == 0 then 0 else l.records[i - 1].generation
      {
        if !GoodRecord(l.keys, l.records[i]) || l.records[i].generation <= highest { return false; }
        highest := l.records[i].generation;
      }
      return highest == l.generation;
    }

    /** The first match of the reversed log. */
    static method FindLatest(records: seq<Stored>, operation: string, name: string) returns (r: Option<Record>)
      ensures r == Latest(records, operation, name)
    {
      var i := |records|;
      assert records[..i] == records;
      while i > 0
        invariant 0 <= i <= |records|
        invariant Latest(records, operation, name) == Latest(records[..i], operation, name)
      {
        i := i - 1;
        var record := records[i].record;
        assert records[..i + 1][..i] == records[..i];
        if record.operation == operation && record.name == name { return Some(record); }
      }
      return None;
    }

    /** A later record of the same history overwrites the earlier one. */
    static method LifecycleRecords(records: seq<Stored>) returns (latest: map<(string, string), Record>)
      ensures forall o, n :: (o, n) in latest <==> Latest(records, o, n).Some?
      ensures forall o, n :: (o, n) in latest ==> latest[(o, n)] == Latest(records, o, n).value
    {
      latest := map[];
      for i := 0 to |records|
        invariant forall o, n :: (o, n) in latest <==> Latest(records[..i], o, n).Some?
        invariant forall o, n :: (o, n) in latest ==> latest[(o, n)] == Latest(records[..i], o, n).value
      {
        var r := records[i].record;
        latest := latest[(r.operation, r.name) := r];
        assert records[..i + 1] == records[..i] + [records[i]];
        forall o, n
          ensures Latest(records[..i + 1], o, n)
               == if r.operation == o && r.name == n then Some(r) else Latest(records[..i], o, n)
        {
          LatestAfter(records[..i], records[i], o, n);
        }
      }
      assert records[..|records|] == records;
    }

    /** The fold over every record of the name: the last state of each other operation. */
    static method IsHeldByOther(records: seq<Stored>, operation: string, name: string) returns (held: bool)
      ensures held <==> HeldByOther(records, operation, name)
    {
      var states: map<string, RecordState> := map[];
      for i := 0 to |records|
        invariant forall o :: o in states <==> o != operation && Latest(records[..i], o, name).Some?
        invariant forall o :: o in states ==> states[o] == Latest(records[..i], o, name).value.state
      {
        var r := records[i].record;
        if r.name == name && r.operation != operation { states := states[r.operation := r.state]; }
        assert records[..i + 1] == records[..i] + [records[i]];
        forall o { LatestAfter(records[..i], records[i], o, name); }
      }
      assert records[..|records|] == records;
      assert forall o :: (o in states && states[o] != Retired) <==> (o != operation && Holds(records, o, name));
      held := exists o :: o in states && states[o] != Retired;
    }

    method Read() returns (r: Result<Ledger, AuthorityError>)
      ensures r == ReadFile(OnDisk())
    {
      if file.None? { return Err(StateError); }
      var ok := ValidateState(file.value);
      return if ok then Ok(file.value) else Err(StateError);
    }

    method ReadOrInitialState(initializing: bool, keyId: KeyId, key: PrivateKey)
      returns (r: Result<Ledger, AuthorityError>)
      ensures r == ReadOrInitial(OnDisk(), initializing, keyId, key)
    {
      if file.None? {
        return if initializing then Ok(InitialLedger(keyId, key)) else Err(StateError);
      }
      r := Read();
    }

    /** Signs, numbers and writes one record; a failed write leaves the file as it was. */
    method Append(l: Ledger, r: Record, fails: bool) returns (l': Result<Ledger, AuthorityError>)
      requires l.activeKey in l.keys
      modifies this`file
      ensures l' == if ValidRecord(r) && !fails then Ok(Appended(l, r)) else Err(StateError)
      ensures file == if l'.Ok? then Some(l'.value) else old(file)
    {
      if !ValidRecord(r) || fails { return Err(StateError); }
      var generation := l.generation + 1;
      var signature := Signature(l.keys[l.activeKey], RecordPayload(r, generation, l.activeKey));
      var appended := l.(generation := generation,
                         records := l.records + [Stored(r, generation, l.activeKey, signature)]);
      file := Some(appended);
      return Ok(appended);
    }

    method Reserve(operation: string, name: string, call: Call) returns (a: Answer)
      requires call.command == Command.Reserve(operation, name)
      modifies this
      ensures (OnDisk(), a) == Apply(old(OnDisk()), call)
    {
      var initializing := !lockExists;
      lockExists := true;
      var read := ReadOrInitialState(initializing, call.freshKeyId, call.freshKey);
      if read.Err? { return Refused(read.error); }
      AppendOne(read.value, ContainerRecord(operation, name, "", Reserved), call.writes);
      var r := Append(read.value, ContainerRecord(operation, name, "", Reserved), call.writes == 0);
      return if r.Ok? then Done else Refused(r.error);
    }

    /** `bind`, `activate` and `retire` share one guarded transition. */
    method Transition(
      operation: string, name: string, dockerId: string, expected: RecordState, target: RecordState, call: Call)
      returns (a: Answer)
      requires expected == if target == Retired then Active else Reserved
      requires call.command == match target
        case Reserved => Command.Bind(operation, name, dockerId)
        case Active => Command.Activate(operation, name, dockerId)
        case Retired => Command.Retire(operation, name, dockerId)
      modifies this
      ensures (OnDisk(), a) == Apply(old(OnDisk()), call)
    {
      lockExists := true;
      var read := ReadOrInitialState(false, call.freshKeyId, call.freshKey);
      if read.Err? { return Refused(read.error); }
      var record := FindLatest(read.value.records, operation, name);
      if record.None? || record.value.state != expected
         || (record.value.dockerId != "" && record.value.dockerId != dockerId) {
        return Refused(StateError);
      }
      AppendOne(read.value, ContainerRecord(operation, name, dockerId, target), call.writes);
      var r := Append(read.value, ContainerRecord(operation, name, dockerId, target), call.writes == 0);
      return if r.Ok? then Done else Refused(r.error);
    }

    method RetireAbsent(operation: string, name: string, expected: Option<string>, call: Call) returns (a: Answer)
      requires call.command == Command.RetireAbsent(operation, name, expected)
      modifies this
      ensures (OnDisk(), a) == Apply(old(OnDisk()), call)
    {
      lockExists := true;
      var read := ReadOrInitialState(false, call.freshKeyId, call.freshKey);
      if read.Err? { return Refused(read.error); }
      var record := FindLatest(read.value.records, operation, name);
      if record.None? || record.value.state == Reserved
         || (expected.Some? && record.value.dockerId != expected.value) {
        return Refused(StateError);
      }
      if record.value.state == Retired { return Done; }
      AppendOne(read.value, ContainerRecord(operation, name, record.value.dockerId, Retired), call.writes);
      var r := Append(read.value, ContainerRecord(operation, name, record.value.dockerId, Retired), call.writes == 0);
      return if r.Ok? then Done else Refused(r.error);
    }

    /** The three-write transition, resumed from whatever the log already holds. */
    method Converge(operation: string, name: string, dockerId: string, call: Call) returns (a: Answer)
      requires call.command == Command.Converge(operation, name, dockerId)
      modifies this
      ensures (OnDisk(), a) == Apply(old(OnDisk()), call)
    {
      var initializing := !lockExists;
      lockExists := true;
      var read := ReadOrInitialState(initializing, call.freshKeyId, call.freshKey);
      if read.Err? { return Refused(read.error); }
      var record := FindLatest(read.value.records, operation, name);
      var held := IsHeldByOther(read.value.records, operation, name);
      if held { return Refused(Conflict); }
      a := ConvergeFrom(read.value, record, operation, name, dockerId, call.writes);
    }

    /** The writes that are missing after the latest record, one at a time. */
    method ConvergeFrom(
      l0: Ledger, record: Option<Record>, operation: string, name: string, dockerId: string, writes0: nat)
      returns (a: Answer)
      requires l0.activeKey in l0.keys
      modifies this`file
      ensures (OnDisk(), a) == match ConvergeWrites(record, operation, name, dockerId)
        case Err(e) => (old(OnDisk()), Refused(e))
        case Ok(rs) => Committed(old(OnDisk()), l0, rs, writes0)
    {
      ghost var bound := ContainerRecord(operation, name, dockerId, Reserved);
      ghost var active := ContainerRecord(operation, name, dockerId, Active);
      ghost var reserved := ContainerRecord(operation, name, "", Reserved);
      assert [reserved, bound, active] == [reserved] + [bound, active];
      assert [bound, active] == [bound] + [active] && [active] == [active] + [];
      var l, writes := l0, writes0;
      if record.None? {
        AppendFirst(l, reserved, [bound, active], writes);
        var r0 := Append(l, ContainerRecord(operation, name, "", Reserved), writes == 0);
        if r0.Err? { return Refused(r0.error); }
        l, writes := r0.value, writes - 1;
      }
      if record.None? || (record.value.state == Reserved && record.value.dockerId == "") {
        AppendFirst(l, bound, [active], writes);
        var r1 := Append(l, ContainerRecord(operation, name, dockerId, Reserved), writes == 0);
        if r1.Err? { return Refused(r1.error); }
        l, writes := r1.value, writes - 1;
      }
      if record.None?
         || (record.value.state == Reserved && (record.value.dockerId == "" || record.value.dockerId == dockerId)) {
        AppendFirst(l, active, [], writes);
        var r2 := Append(l, ContainerRecord(operation, name, dockerId, Active), writes == 0);
        if r2.Err? { return Refused(r2.error); }
        l, writes := r2.value, writes - 1;
      } else if record.value.kind != "container" || record.value.state != Active || record.value.dockerId != dockerId {
        return Refused(Conflict);
      }
      return Done;
    }

    method RotateKeys(keyId: KeyId, key: PrivateKey, call: Call) returns (a: Answer)
      requires call.command == Command.RotateKeys(keyId, key)
      modifies this
      ensures (OnDisk(), a) == Apply(old(OnDisk()), call)
    {
      lockExists := true;
      var read := Read();
      if read.Err? { return Refused(read.error); }
      if call.writes == 0 { return Refused(StateError); }
      file := Some(read.value.(keys := read.value.keys[keyId := key], activeKey := keyId));
      return Done;
    }

    method VerifyEvidence(e: Evidence, dockerId: string, now: int, call: Call) returns (a: Answer)
      requires call.command == Command.VerifyEvidence(e, dockerId, now)
      modifies this
      ensures (OnDisk(), a) == Apply(old(OnDisk()), call)
    {
      if e.dockerId != dockerId { return Rejected; }
      if e.keyId == "" || e.operation == "" || e.dockerId == "" || e.nonce == "" { return Rejected; }
      if e.schema != 1 || !(e.observedAt <= now < e.expiresAt) { return Rejected; }
      lockExists := true;
      var read := Read();
      if read.Err? { return Rejected; }
      var l := read.value;
      if e.keyId !in l.keys || e.nonce in l.usedNonces { return Rejected; }
      if e.signature != Signature(l.keys[e.keyId], e.Payload()) { return Rejected; }
      var backed := exists s :: s in l.records && s.record.operation == e.operation
                                && s.record.dockerId == dockerId && s.record.state == Active;
      if !backed || call.writes == 0 { return Rejected; }
      file := Some(l.(usedNonces := l.usedNonces + [e.nonce]));
      return Answer.Accepted;
    }
  }
}
