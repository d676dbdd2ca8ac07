/**
 Registration of instances: the in-memory registry as the sequential
 specification, and the PostgreSQL `register` as interleaved steps of many
 clients (lookup, insert or skip, commit, re-lookup), each retried once when
 its transaction fails.  Statements see what was committed before them, an
 insert waits for conflicting uncommitted rows, and pointer and operation id
 are unique.
 */
module Registration {
  import opened Wrappers

  datatype Pointer = Pointer(tenant: string, project: string, instance: string)

  datatype Receipt = Receipt(operationId: string, requestDigest: string, ownedIds: seq<string>, liveProof: bool)

  datatype InstanceRecord = InstanceRecord(pointer: Pointer, resource: string, receipt: Option<Receipt>)

  type Table = map<Pointer, InstanceRecord>

  datatype Answer = Registered(record: InstanceRecord) | ConflictError | MissingReceipt

  // ------------------------------------------------------------------------
  // The sequential specification
  // ------------------------------------------------------------------------

  predicate HasOperation(r: InstanceRecord, operationId: string) {
    r.receipt.Some? && r.receipt.value.operationId == operationId
  }

  /** Two rows that cannot both be in the table. */
  predicate Clash(a: InstanceRecord, b: InstanceRecord) {
    a.pointer == b.pointer || (b.receipt.Some? && HasOperation(a, b.receipt.value.operationId))
  }

  ghost predicate ClashesWith(t: Table, r: InstanceRecord) {
    exists p :: p in t && Clash(t[p], r)
  }

  /** Rows sit under their own pointer and no operation id occurs twice. */
  ghost predicate Unique(t: Table) {
    && (forall p :: p in t ==> t[p].pointer == p)
    && (forall p, q :: p in t && q in t && p != q ==> !Clash(t[p], t[q]))
  }

  /** One uncontended `register`. */
  ghost function Sequential(t: Table, r: InstanceRecord): (Table, Answer) {
    if r.receipt.None? then (t, MissingReceipt)
    else if r.pointer in t && t[r.pointer] == r then (t, Registered(r))
    else if ClashesWith(t, r) then (t, ConflictError)
    else (t[r.pointer := r], Registered(r))
  }

  class FakeInstanceRegistry {
    var records: Table
    var byOperation: map<string, InstanceRecord>

    /** The operation index lists exactly the receipt-bearing rows. */
    ghost predicate Valid()
      reads this
    {
      && Unique(records)
      && (forall o :: o in byOperation ==>
            && byOperation[o].pointer in records && records[byOperation[o].pointer] == byOperation[o]
            && HasOperation(byOperation[o], o))
      && (forall p, o :: p in records && HasOperation(records[p], o) ==> o in byOperation)
    }

    constructor ()
      ensures Valid() && records == map[]
    {
      records, byOperation := map[], map[];
    }

    method Register(record: InstanceRecord) returns (a: Answer)
      requires Valid()
      modifies this
      ensures Valid() && (records, a) == Sequential(old(records), record)
    {
      if record.receipt.None? { return MissingReceipt; }
      var operationId, key := record.receipt.value.operationId, record.pointer;
      var existing := if operationId in byOperation then Some(byOperation[operationId])
                      else if key in records then Some(records[key]) else None;
      if existing.Some? {
        return if existing.value == record then Registered(record) else ConflictError;
      }
      byOperation := byOperation[operationId := record];
      records := records[key := record];
      return Registered(record);
    }

    method Get(pointer: Pointer) returns (r: Option<InstanceRecord>)
      ensures r == if pointer in records then Some(records[pointer]) else None
    {
      return if pointer in records then Some(records[pointer]) else None;
    }
  }

  /** A registration is answered with its record exactly when that record can be read back afterwards. */
  method RegisterThenGet(registry: FakeInstanceRegistry, record: InstanceRecord)
    returns (a: Answer, found: Option<InstanceRecord>)
    requires registry.Valid()
    modifies registry
    ensures registry.Valid()
    ensures record.receipt.Some? ==> (a == Registered(record) <==> found == Some(record))
    ensures a == ConflictError ==> registry.records == old(registry.records) && found != Some(record)
  {
    a := registry.Register(record);
    found := registry.Get(record.pointer);
  }

  // ------------------------------------------------------------------------
  // One lookup statement
  // ------------------------------------------------------------------------

  /** `Unreadable`: a matching row carries no receipt and cannot be turned into a record. */
  datatype Found = Nothing | Unreadable | Decided(answer: Answer)

  ghost function Lookup(t: Table, r: InstanceRecord): Found {
    if !ClashesWith(t, r) then Nothing
    else if exists p :: p in t && Clash(t[p], r) && t[p].receipt.None? then Unreadable
    else if exists p :: p in t && Clash(t[p], r) && t[p] == r then Decided(Registered(r))
    else Decided(ConflictError)
  }

  /**
   Against the same table the SQL lookup and the sequential registry agree
   exactly when the pointer is not occupied by a row without a receipt.
   */
  lemma LookupAgreesIff(t: Table, r: InstanceRecord)
    requires Unique(t) && r.receipt.Some? && ClashesWith(t, r)
    ensures Lookup(t, r) == Decided(Sequential(t, r).1) <==> !(r.pointer in t && t[r.pointer].receipt.None?)
    ensures Sequential(t, r).0 == t
  {
    if r.pointer in t {
      assert Clash(t[r.pointer], r);
    }
  }

  lemma LegacyRowIsAnsweredDifferently() returns (t: Table, r: InstanceRecord)
    ensures Unique(t) && r.receipt.Some?
    ensures Lookup(t, r) == Unreadable && Sequential(t, r).1 == ConflictError
  {
    var p := Pointer("tenant", "project", "instance");
    t := map[p := InstanceRecord(p, "database", None)];
    r := InstanceRecord(p, "database", Some(Receipt("op", "digest", [], true)));
    assert Clash(t[p], r);
  }

  // ------------------------------------------------------------------------
  // Interleaved clients
  // ------------------------------------------------------------------------

  type ClientId = nat

  datatype Phase = Start | LookedUp | Pending | Skipped | Answered(answer: Answer) | Failed

  /** `retrying`: the second attempt; `landed`: an attempt's row was committed although it reported an error. */
  datatype Client = Client(record: InstanceRecord, phase: Phase, retrying: bool, landed: bool)

  /** A registration that took effect: at this point of the serial order, with this answer. */
  datatype Entry = Entry(client: ClientId, record: InstanceRecord, answer: Answer)

  datatype System = System(table: Table, clients: map<ClientId, Client>, log: seq<Entry>)

  datatype Action =
    | Look(client: ClientId)
    | Insert(client: ClientId)
    | Commit(client: ClientId)
    | CommitReportingError(client: ClientId)
    | Relook(client: ClientId)
    | Fail(client: ClientId)

  function AfterError(c: Client): Client {
    if c.retrying then c.(phase := Failed) else c.(phase := Start, retrying := true)
  }

  ghost predicate Blocked(s: System, id: ClientId)
    requires id in s.clients
  {
    exists other :: other in s.clients && other != id && s.clients[other].phase == Pending
                    && Clash(s.clients[other].record, s.clients[id].record)
  }

  function Answering(s: System, id: ClientId, a: Answer): System
    requires id in s.clients
  {
    var c := s.clients[id];
    s.(clients := s.clients[id := c.(phase := Answered(a))], log := s.log + [Entry(id, c.record, a)])
  }

  /** A step that is not enabled leaves the system as it is. */
  ghost function Step(s: System, action: Action): System {
    var id := action.client;
    if id !in s.clients then s
    else
      var c := s.clients[id];
      match action
      case Look(_) =>
        if c.phase != Start then s
        else if c.record.receipt.None? then Answering(s, id, MissingReceipt)
        else (match Lookup(s.table, c.record)
              case Nothing => s.(clients := s.clients[id := c.(phase := LookedUp)])
              case Unreadable => s.(clients := s.clients[id := AfterError(c)])
              case Decided(a) => Answering(s, id, a))
      case Insert(_) =>
        if c.phase != LookedUp || Blocked(s, id) then s
        else if ClashesWith(s.table, c.record) then s.(clients := s.clients[id := c.(phase := Skipped)])
        else s.(clients := s.clients[id := c.(phase := Pending)])
      case Commit(_) =>
        if c.phase != Pending then s
        else Answering(s.(table := s.table[c.record.pointer := c.record]), id, Registered(c.record))
      case CommitReportingError(_) =>
        if c.phase != Pending then s
        else s.(table := s.table[c.record.pointer := c.record],
                clients := s.clients[id := AfterError(c).(landed := true)],
                log := s.log + [Entry(id, c.record, Registered(c.record))])
      case Relook(_) =>
        if c.phase != Skipped then s
        else (match Lookup(s.table, c.record)
              case Nothing => Answering(s, id, ConflictError)
              case Unreadable => s.(clients := s.clients[id := AfterError(c)])
              case Decided(a) => Answering(s, id, a))
      case Fail(_) =>
        if c.phase.Answered? || c.phase == Failed then s
        else s.(clients := s.clients[id := AfterError(c)])
  }

  ghost function Run(s: System, actions: seq<Action>): System {
    if actions == [] then s else Step(Run(s, actions[..|actions| - 1]), actions[|actions| - 1])
  }

  // ------------------------------------------------------------------------
  // Linearizability
  // ------------------------------------------------------------------------

  /** The table after the log is replayed on the sequential specification. */
  ghost function Replay(t: Table, log: seq<Entry>): Table {
    if log == [] then t else Sequential(Replay(t, log[..|log| - 1]), log[|log| - 1].record).0
  }

  /** Every entry carries the answer the specification gives at its place in the serial order. */
  ghost predicate Serial(t: Table, log: seq<Entry>) {
    log == [] || (Serial(t, log[..|log| - 1])
      && log[|log| - 1].answer == Sequential(Replay(t, log[..|log| - 1]), log[|log| - 1].record).1)
  }

  ghost predicate Initial(s: System) {
    && Unique(s.table) && s.log == []
    && forall id :: id in s.clients ==>
         s.clients[id].phase == Start && !s.clients[id].retrying && !s.clients[id].landed
  }

  ghost predicate Extends(t: Table, u: Table) {
    forall p :: p in t ==> p in u && u[p] == t[p]
  }

  /** The last effect logged for `id`, if any. */
  function LastEntry(log: seq<Entry>, id: ClientId): Option<Entry> {
    if log == [] then None
    else if log[|log| - 1].client == id then Some(log[|log| - 1])
    else LastEntry(log[..|log| - 1], id)
  }

  ghost predicate ClientOk(s: System, id: ClientId)
    requires id in s.clients
  {
    var c := s.clients[id];
    && (c.phase in {LookedUp, Pending, Skipped} ==> c.record.receipt.Some?)
    && (c.phase == Skipped ==> ClashesWith(s.table, c.record))
    && (c.phase == Pending ==> !ClashesWith(s.table, c.record) && !Blocked(s, id))
    && (c.phase.Answered? ==> LastEntry(s.log, id) == Some(Entry(id, c.record, c.phase.answer)))
    && (!c.phase.Answered? && !c.landed ==> LastEntry(s.log, id) == None)
    && (c.landed ==>
          && c.record.pointer in s.table && s.table[c.record.pointer] == c.record && c.record.receipt.Some?
          && (c.phase == Start || c.phase == Failed || c.phase == Answered(Registered(c.record))))
  }

  ghost predicate Inv(t0: Table, s: System) {
    && Unique(s.table)
    && Serial(t0, s.log) && Replay(t0, s.log) == s.table
    && forall id :: id in s.clients ==> ClientOk(s, id)
  }

  /** A row without a receipt occupies the pointer of `r`. */
  predicate LegacyPointer(t: Table, r: InstanceRecord) {
    r.pointer in t && t[r.pointer].receipt.None?
  }

  /** A lookup is unreadable exactly at a row without a receipt; otherwise it decides as the specification does. */
  lemma LookupDecides(t: Table, r: InstanceRecord)
    requires Unique(t) && r.receipt.Some?
    ensures Lookup(t, r) == Unreadable <==> LegacyPointer(t, r)
    ensures Lookup(t, r) == Nothing <==> !ClashesWith(t, r)
    ensures Lookup(t, r).Decided? ==> Lookup(t, r) == Decided(Sequential(t, r).1)
    ensures ClashesWith(t, r) ==> Sequential(t, r).0 == t
    ensures !ClashesWith(t, r) ==> Sequential(t, r) == (t[r.pointer := r], Registered(r))
  {
    if r.pointer in t { assert Clash(t[r.pointer], r); }
  }

  /** Answering from the table as it is: the entry extends the serial order without changing the table. */
  lemma LogAnswer(t0: Table, s: System, e: Entry)
    requires Serial(t0, s.log) && Replay(t0, s.log) == s.table
    requires e.answer == Sequential(s.table, e.record).1
    ensures Serial(t0, s.log + [e]) && Replay(t0, s.log + [e]) == Sequential(s.table, e.record).0
  {
    assert (s.log + [e])[..|s.log|] == s.log;
  }

  lemma LastAfter(log: seq<Entry>, e: Entry, id: ClientId)
    ensures LastEntry(log + [e], id) == if e.client == id then Some(e) else LastEntry(log, id)
  {
    assert (log + [e])[..|log|] == log;
  }

  lemma InsertedRowKeepsTable(t: Table, r: InstanceRecord)
    requires Unique(t) && r.receipt.Some? && !ClashesWith(t, r)
    ensures Unique(t[r.pointer := r]) && Extends(t, t[r.pointer := r])
    ensures forall o :: ClashesWith(t[r.pointer := r], o) <==> ClashesWith(t, o) || Clash(r, o)
  {
    assert r.pointer !in t by {
      if r.pointer in t { assert Clash(t[r.pointer], r); }
    }
    var u := t[r.pointer := r];
    forall o ensures ClashesWith(u, o) <==> ClashesWith(t, o) || Clash(r, o) {
      if ClashesWith(t, o) {
        var p :| p in t && Clash(t[p], o);
        assert Clash(u[p], o);
      }
      if Clash(r, o) { assert Clash(u[r.pointer], o); }
    }
  }

  /** A client answered from the unchanged table. */
  lemma AnsweringKeepsInv(t0: Table, s: System, id: ClientId, a: Answer)
    requires Inv(t0, s) && id in s.clients
    requires (s.table, a) == Sequential(s.table, s.clients[id].record)
    requires s.clients[id].landed ==> a == Registered(s.clients[id].record)
    ensures Inv(t0, Answering(s, id, a))
  {
    var c := s.clients[id];
    var e := Entry(id, c.record, a);
    LogAnswer(t0, s, e);
    var u := Answering(s, id, a);
    forall other | other in u.clients ensures ClientOk(u, other) {
      LastAfter(s.log, e, other);
      assert ClientOk(s, other);
      BlockedOnlyByPending(s, u, id, other);
    }
  }

  /** Changing only client `id`, and not to pending, blocks nobody anew. */
  lemma BlockedOnlyByPending(s: System, u: System, id: ClientId, other: ClientId)
    requires id in s.clients && other in s.clients && u.clients.Keys == s.clients.Keys
    requires forall x :: x in s.clients ==>
      u.clients[x].record == s.clients[x].record && (x != id ==> u.clients[x] == s.clients[x])
    requires u.clients[id].phase != Pending
    ensures Blocked(u, other) ==> Blocked(s, other)
  {
  }

  lemma StepKeepsInv(t0: Table, s: System, action: Action)
    requires Inv(t0, s)
    ensures Inv(t0, Step(s, action)) && Extends(s.table, Step(s, action).table)
  {
    var id := action.client;
    if id in s.clients {
      var c := s.clients[id];
      assert ClientOk(s, id);
      match action {
        case Look(_) =>
          if c.phase == Start && c.record.receipt.None? {
            AnsweringKeepsInv(t0, s, id, MissingReceipt);
          } else if c.phase == Start {
            LookupDecides(s.table, c.record);
            if c.landed { assert Clash(s.table[c.record.pointer], c.record); }
            if LegacyPointer(s.table, c.record) {
              PhaseChangeKeepsInv(t0, s, id, AfterError(c));
            } else if ClashesWith(s.table, c.record) {
              AnsweringKeepsInv(t0, s, id, Sequential(s.table, c.record).1);
            } else {
              PhaseChangeKeepsInv(t0, s, id, c.(phase := LookedUp));
            }
          }
        case Insert(_) =>
          if c.phase == LookedUp && !Blocked(s, id) {
            if ClashesWith(s.table, c.record) {
              PhaseChangeKeepsInv(t0, s, id, c.(phase := Skipped));
            } else {
              PendingKeepsInv(t0, s, id);
            }
          }
        case Commit(_) =>
          if c.phase == Pending { CommitKeepsInv(t0, s, id, c.(phase := Answered(Registered(c.record)))); }
        case CommitReportingError(_) =>
          if c.phase == Pending { CommitKeepsInv(t0, s, id, AfterError(c).(landed := true)); }
        case Relook(_) =>
          if c.phase == Skipped {
            LookupDecides(s.table, c.record);
            if LegacyPointer(s.table, c.record) {
              PhaseChangeKeepsInv(t0, s, id, AfterError(c));
            } else {
              AnsweringKeepsInv(t0, s, id, Sequential(s.table, c.record).1);
            }
          }
        case Fail(_) =>
          if !c.phase.Answered? && c.phase != Failed { PhaseChangeKeepsInv(t0, s, id, AfterError(c)); }
      }
    }
  }

  lemma PhaseChangeKeepsInv(t0: Table, s: System, id: ClientId, c': Client)
    requires Inv(t0, s) && id in s.clients && !s.clients[id].phase.Answered?
    requires c'.record == s.clients[id].record && c'.landed == s.clients[id].landed
    requires c'.phase in {Start, LookedUp, Skipped, Failed}
    requires c'.phase in {LookedUp, Skipped} ==> c'.record.receipt.Some? && !c'.landed
    requires c'.phase == Skipped ==> ClashesWith(s.table, c'.record)
    ensures Inv(t0, s.(clients := s.clients[id := c']))
  {
    var u := s.(clients := s.clients[id := c']);
    forall other | other in u.clients ensures ClientOk(u, other) {
      assert ClientOk(s, other);
      BlockedOnlyByPending(s, u, id, other);
    }
  }

  /** An inserted row becomes pending only while no other pending row clashes with it. */
  lemma PendingKeepsInv(t0: Table, s: System, id: ClientId)
    requires Inv(t0, s) && id in s.clients && s.clients[id].phase == LookedUp
    requires !Blocked(s, id) && !ClashesWith(s.table, s.clients[id].record)
    ensures Inv(t0, s.(clients := s.clients[id := s.clients[id].(phase := Pending)]))
  {
    var c := s.clients[id];
    var u := s.(clients := s.clients[id := c.(phase := Pending)]);
    assert ClientOk(s, id);
    forall other | other in u.clients ensures ClientOk(u, other) {
      assert ClientOk(s, other);
      if other != id && s.clients[other].phase == Pending {
        assert !Clash(s.clients[other].record, c.record);
        assert !Clash(c.record, s.clients[other].record);
      }
    }
  }

  lemma CommitKeepsInv(t0: Table, s: System, id: ClientId, c': Client)
    requires Inv(t0, s) && id in s.clients && s.clients[id].phase == Pending
    requires var c := s.clients[id];
      c' == c.(phase := Answered(Registered(c.record))) || c' == AfterError(c).(landed := true)
    ensures var r := s.clients[id].record;
      var u := System(s.table[r.pointer := r], s.clients[id := c'], s.log + [Entry(id, r, Registered(r))]);
      Inv(t0, u) && Extends(s.table, u.table)
  {
    var r := s.clients[id].record;
    var e := Entry(id, r, Registered(r));
    var u := System(s.table[r.pointer := r], s.clients[id := c'], s.log + [e]);
    assert ClientOk(s, id);
    LookupDecides(s.table, r);
    LogAnswer(t0, s, e);
    InsertedRowKeepsTable(s.table, r);
    forall other | other in u.clients ensures ClientOk(u, other) {
      LastAfter(s.log, e, other);
      assert ClientOk(s, other);
      BlockedOnlyByPending(s, u, id, other);
      if other != id && s.clients[other].phase == Pending {
        assert !Clash(r, s.clients[other].record);
      }
    }
  }

  /**
   Every interleaving of any number of clients is equivalent to the serial
   order of its log: the table is the one the specification ends with, every
   entry carries the specification's answer, every client that returned was
   given its logged answer, and committed rows never change.
   */
  lemma {:induction false} RegisterIsLinearizable(s: System, actions: seq<Action>)
    requires Initial(s)
    ensures Inv(s.table, Run(s, actions)) && Extends(s.table, Run(s, actions).table)
    ensures forall id :: id in Run(s, actions).clients && Run(s, actions).clients[id].phase.Answered? ==>
      LastEntry(Run(s, actions).log, id)
        == Some(Entry(id, Run(s, actions).clients[id].record, Run(s, actions).clients[id].phase.answer))
    decreases |actions|
  {
    if actions == [] {
    } else {
      RegisterIsLinearizable(s, actions[..|actions| - 1]);
      StepKeepsInv(s.table, Run(s, actions[..|actions| - 1]), actions[|actions| - 1]);
    }
    assert forall id :: id in Run(s, actions).clients ==> ClientOk(Run(s, actions), id);
  }

  lemma {:induction false} LogOnlyGrows(s: System, actions: seq<Action>, k: nat)
    requires k <= |actions|
    ensures Run(s, actions[..k]).log <= Run(s, actions).log
    decreases |actions|
  {
    if k < |actions| {
      var before := actions[..|actions| - 1];
      LogOnlyGrows(s, before, k);
      assert before[..k] == actions[..k];
    } else {
      assert actions[..k] == actions;
    }
  }

  lemma {:induction false} NotLogged(log: seq<Entry>, id: ClientId)
    requires LastEntry(log, id) == None
    ensures forall i :: 0 <= i < |log| ==> log[i].client != id
    decreases |log|
  {
    if log != [] { NotLogged(log[..|log| - 1], id); }
  }

  /** A client that has returned stays returned and takes no further effect. */
  lemma {:induction false} AnsweredIsDone(s: System, actions: seq<Action>, k: nat, id: ClientId)
    requires k <= |actions|
    requires var t := Run(s, actions[..k]); id in t.clients && t.clients[id].phase.Answered?
    ensures var t, u := Run(s, actions[..k]), Run(s, actions);
      && id in u.clients && u.clients[id] == t.clients[id]
      && forall i :: |t.log| <= i < |u.log| ==> u.log[i].client != id
    decreases |actions|
  {
    if k < |actions| {
      var before := actions[..|actions| - 1];
      assert before[..k] == actions[..k];
      AnsweredIsDone(s, before, k, id);
    } else {
      assert actions[..k] == actions;
    }
  }

  /**
   Real-time order: when `a` has returned before `b` took any effect, whatever
   `a` registered precedes whatever `b` registers in the serial order.
   */
  lemma SerialOrderIsRealTime(s: System, actions: seq<Action>, k: nat, a: ClientId, b: ClientId)
    requires Initial(s) && k <= |actions|
    requires var t := Run(s, actions[..k]);
      && a in t.clients && t.clients[a].phase.Answered?
      && b in t.clients && !t.clients[b].phase.Answered? && !t.clients[b].landed
    ensures var log := Run(s, actions).log;
      forall i, j :: 0 <= i < |log| && 0 <= j < |log| && log[i].client == a && log[j].client == b ==> i < j
  {
    RegisterIsLinearizable(s, actions[..k]);
    assert ClientOk(Run(s, actions[..k]), b);
    NotLogged(Run(s, actions[..k]).log, b);
    AnsweredIsDone(s, actions, k, a);
    LogOnlyGrows(s, actions, k);
  }

  ghost predicate Unanswered(s: System, id: ClientId, r: InstanceRecord) {
    && id in s.clients && s.clients[id].record == r && s.clients[id].phase in {Start, Failed}
    && !s.clients[id].landed && LastEntry(s.log, id) == None
  }

  lemma LegacyStep(s: System, action: Action, id: ClientId, r: InstanceRecord)
    requires Unique(s.table) && r.receipt.Some? && LegacyPointer(s.table, r)
    requires Unanswered(s, id, r)
    ensures Unanswered(Step(s, action), id, r)
  {
    if action.client == id {
      LookupDecides(s.table, r);
    } else {
      StepLogsOnlyItsClient(s, action, id);
    }
  }

  /** A client whose pointer is held by a row without a receipt never gets an answer, in any interleaving. */
  lemma {:induction false} LegacyPointerIsNeverAnswered(s: System, actions: seq<Action>, id: ClientId)
    requires Initial(s) && id in s.clients
    requires s.clients[id].record.receipt.Some? && LegacyPointer(s.table, s.clients[id].record)
    ensures Unanswered(Run(s, actions), id, s.clients[id].record)
    decreases |actions|
  {
    if actions != [] {
      var before := actions[..|actions| - 1];
      LegacyPointerIsNeverAnswered(s, before, id);
      RegisterIsLinearizable(s, before);
      LegacyStep(Run(s, before), actions[|actions| - 1], id, s.clients[id].record);
    }
  }

  /** Left alone, a registering client is answered exactly when its pointer is not held by such a row. */
  lemma UndisturbedClientIsAnsweredIff(s: System, id: ClientId)
    requires Initial(s) && id in s.clients && s.clients[id].record.receipt.Some?
    ensures Step(Step(Step(s, Look(id)), Insert(id)), Commit(id)).clients[id].phase.Answered? <==>
      !LegacyPointer(s.table, s.clients[id].record)
  {
    var r := s.clients[id].record;
    LookupDecides(s.table, r);
    var looked := Step(s, Look(id));
    if !ClashesWith(s.table, r) {
      assert !LegacyPointer(s.table, r) && looked.clients[id].phase == LookedUp && !Blocked(looked, id);
    }
  }

  lemma StepLogsOnlyItsClient(t: System, action: Action, id: ClientId)
    ensures action.client != id ==> LastEntry(Step(t, action).log, id) == LastEntry(t.log, id)
  {
    var u := Step(t, action);
    if u.log != t.log {
      assert u.log[..|u.log| - 1] == t.log;
    }
  }

  lemma StepKeepsClient(s: System, action: Action, id: ClientId)
    requires id in s.clients
    ensures id in Step(s, action).clients && Step(s, action).clients[id].record == s.clients[id].record
    ensures s.clients[id].landed ==> Step(s, action).clients[id].landed
  {
  }

  lemma {:induction false} LandedRowStays(s: System, more: seq<Action>, id: ClientId)
    requires id in s.clients
    ensures id in Run(s, more).clients && Run(s, more).clients[id].record == s.clients[id].record
    ensures s.clients[id].landed ==> Run(s, more).clients[id].landed
    decreases |more|
  {
    if more != [] {
      LandedRowStays(s, more[..|more| - 1], id);
      StepKeepsClient(Run(s, more[..|more| - 1]), more[|more| - 1], id);
    }
  }

  lemma {:induction false} RunAppends(s: System, a: seq<Action>, b: seq<Action>)
    ensures Run(Run(s, a), b) == Run(s, a + b)
    decreases |b|
  {
    if b == [] {
      assert a + b == a;
    } else {
      RunAppends(s, a, b[..|b| - 1]);
      assert (a + b)[..|a + b| - 1] == a + b[..|b| - 1];
    }
  }

  /**
   A first attempt whose commit landed but reported an error: whatever the
   others do meanwhile, the retry is answered with that very row at its first
   statement, unless it fails too.
   */
  lemma LostCommitIsAnsweredByRetry(s: System, actions: seq<Action>, id: ClientId, more: seq<Action>)
    requires Initial(s)
    requires var t := Run(s, actions); id in t.clients && t.clients[id].phase == Pending && !t.clients[id].retrying
    ensures var r := Run(s, actions).clients[id].record;
      var u := Run(Step(Run(s, actions), CommitReportingError(id)), more);
      && id in u.clients && u.clients[id].record == r
      && u.clients[id].phase in {Start, Failed, Answered(Registered(r))}
      && (u.clients[id].phase == Start ==>
            Step(u, Look(id)).table == u.table && Step(u, Look(id)).clients[id].phase == Answered(Registered(r)))
  {
    var lost := [CommitReportingError(id)];
    assert (actions + lost)[..|actions|] == actions;
    LandedRowStays(Run(s, actions + lost), more, id);
    RunAppends(s, actions + lost, more);
    RegisterIsLinearizable(s, actions + lost + more);
    var u := Run(s, actions + lost + more);
    assert ClientOk(u, id);
    LookupDecides(u.table, u.clients[id].record);
    assert Clash(u.table[u.clients[id].record.pointer], u.clients[id].record);
  }
}
