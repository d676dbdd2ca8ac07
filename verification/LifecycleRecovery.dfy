/**
 The lifecycle recovery service.  Registry and gateway answers are arbitrary
 at every call, and any call may raise and abort the run; an append to the
 journal that raises may have stored its event or lost it.  Everything the
 service does, tries or learns is one effect of `trace`, in order, over all
 its runs; an action that raised is there as an attempt, a lost event as
 unjournaled, and the journal is the journaled part.
 */
module LifecycleRecovery {
  import opened Wrappers

  type Scope = string

  datatype ResourceClass = Dev | Qa | Prod

  datatype Presence = Absent | Invalid | Present | Unverifiable

  datatype Ownership = Created | Adopted | External

  datatype TtlOverride = TtlOverride(resourceId: string, ttl: int)

  datatype Policy = Policy(ttl: int, grace: int, approved: set<ResourceClass>, overrides: seq<TtlOverride>)

  datatype Authorization = Authorization(actor: string, reason: string, approved: bool)

  datatype DatabaseRef = DatabaseRef(identifier: string, ownership: Ownership)

  datatype Operation = Operation(operationId: string, requestDigest: string)

  datatype Receipt = Receipt(operation: Operation, owned: seq<string>)

  datatype Pointer = Pointer(scope: Scope, instanceId: string)

  datatype InstanceRecord = InstanceRecord(
    pointer: Pointer, identifier: string, kind: string, ownership: Ownership, receipt: Option<Receipt>)

  datatype Observation = Observation(
    ref: DatabaseRef, scope: Scope, digest: string, ownershipValid: bool, class_: ResourceClass,
    lastActivity: Option<int>, receipt: Option<Receipt>, presence: Presence)

  datatype History = History(
    pointer: Pointer, scope: Scope, resource: DatabaseRef, operation: Operation, digest: string,
    class_: ResourceClass, quarantinedAt: int, lastActivity: Option<int>)

  datatype Outcome = Alerted | WasQuarantined | WasAdopted | WasReconciled | WasDeleted | Cancelled | HumanIntervention

  datatype Residual = Residual(code: string, detail: string)

  datatype Event = Event(
    policy: Policy, authorization: Authorization, outcome: Outcome, digest: string,
    residuals: seq<Residual>, history: Option<History>, kind: string)

  datatype GetAnswer = FoundRecord(record: InstanceRecord) | NotFound | GetRaised

  datatype Effect =
    | Listed(records: seq<InstanceRecord>)
    | Observed(observations: seq<Observation>)
    | Got(pointer: Pointer, answer: GetAnswer)
    | Quarantine(ref: DatabaseRef, result: Option<DatabaseRef>)
    | Adopt(ref: DatabaseRef, ok: bool)
    | Reconcile(operationId: string, ok: bool)
    | Delete(ref: DatabaseRef, ok: bool)
    | Cleanup(residuals: seq<string>)
    | CallRaised
    | Journal(event: Event)
    | Unjournaled(event: Event)

  datatype RecoveryResult = RecoveryResult(outcome: Outcome, residuals: seq<Residual>)

  /** `Aborted`: some registry, gateway or journal call raised. */
  datatype Recovery = Recovered(result: RecoveryResult) | Aborted

  // ------------------------------------------------------------------------
  // Policy
  // ------------------------------------------------------------------------

  /** The first override of the resource, or the general time to live. */
  function TtlFor(overrides: seq<TtlOverride>, resourceId: string, default: int): int {
    if overrides == [] then default
    else if overrides[0].resourceId == resourceId then overrides[0].ttl
    else TtlFor(overrides[1..], resourceId, default)
  }

  predicate MayExpire(class_: ResourceClass, policy: Policy) {
    class_ != Prod && class_ in policy.approved
  }

  predicate Eligible(o: Observation, policy: Policy, now: int) {
    && o.lastActivity.Some?
    && MayExpire(o.class_, policy)
    && now - o.lastActivity.value >= TtlFor(policy.overrides, o.ref.identifier, policy.ttl) + policy.grace
  }

  // ------------------------------------------------------------------------
  // Pure checks
  // ------------------------------------------------------------------------

  predicate ConfirmedZombie(scope: Scope, policy: Policy, h: History, o: Option<Observation>) {
    && h.scope == scope && h.pointer.scope == scope
    && h.class_ in {Dev, Qa} && h.class_ in policy.approved
    && (o.Some? ==>
          && o.value.scope == scope && o.value.ref == h.resource && o.value.class_ == h.class_
          && o.value.digest == h.digest && o.value.ownershipValid
          && o.value.presence in {Absent, Invalid}
          && (o.value.receipt.Some? ==> o.value.receipt.value.operation == h.operation))
  }

  predicate RecordMatchesHistory(r: InstanceRecord, h: History) {
    && r.pointer == h.pointer && r.kind == "database"
    && r.identifier == h.resource.identifier && r.ownership == h.resource.ownership
    && r.receipt.Some? && r.receipt.value.operation == h.operation
  }

  predicate WaitElapsed(h: History, wait: int, now: int) {
    h.quarantinedAt <= now && now - h.quarantinedAt >= wait
  }

  predicate LineageMatches(r: InstanceRecord, o: Observation) {
    && r.receipt.Some? && o.receipt.Some?
    && r.receipt.value.operation == o.receipt.value.operation
    && o.ref.identifier in r.receipt.value.owned && o.ref.identifier in o.receipt.value.owned
  }

  /** The observations of one identifier. */
  function Observing(observations: seq<Observation>, identifier: string): (r: seq<Observation>)
    ensures forall o :: o in r <==> o in observations && o.ref.identifier == identifier
  {
    if observations == [] then []
    else (if observations[0].ref.identifier == identifier then [observations[0]] else [])
         + Observing(observations[1..], identifier)
  }

  function ObservingRef(observations: seq<Observation>, ref: DatabaseRef): seq<Observation> {
    if observations == [] then []
    else (if observations[0].ref == ref then [observations[0]] else []) + ObservingRef(observations[1..], ref)
  }

  function RecordsOf(records: seq<InstanceRecord>, kind: string, identifier: string): (r: seq<InstanceRecord>)
    ensures forall x :: x in r <==> x in records && x.kind == kind && x.identifier == identifier
  {
    if records == [] then []
    else (if records[0].kind == kind && records[0].identifier == identifier then [records[0]] else [])
         + RecordsOf(records[1..], kind, identifier)
  }

  function OperationIdOf(r: InstanceRecord): string {
    if r.receipt.Some? then r.receipt.value.operation.operationId else r.pointer.instanceId
  }

  // ------------------------------------------------------------------------
  // Reading the trace
  // ------------------------------------------------------------------------

  predicate Attempts(e: Effect, identifier: string) { e.Delete? && e.ref.identifier == identifier }

  /** How often the gateway was asked to delete the identifier, and how often it returned. */
  function AttemptsOf(t: seq<Effect>, identifier: string): nat {
    if t == [] then 0 else AttemptsOf(t[..|t| - 1], identifier) + (if Attempts(t[|t| - 1], identifier) then 1 else 0)
  }

  function DeletesOf(t: seq<Effect>, identifier: string): nat {
    if t == [] then 0
    else DeletesOf(t[..|t| - 1], identifier) + (if Attempts(t[|t| - 1], identifier) && t[|t| - 1].ok then 1 else 0)
  }

  predicate CarriesHistory(e: Effect, identifier: string) {
    e.Journal? && e.event.history.Some? && e.event.history.value.resource.identifier == identifier
  }

  /** The journaled quarantine histories of an identifier, oldest first. */
  function HistoriesOf(t: seq<Effect>, identifier: string): (r: seq<History>)
    ensures forall h :: h in r ==> h.resource.identifier == identifier
  {
    if t == [] then []
    else HistoriesOf(t[..|t| - 1], identifier)
         + (if CarriesHistory(t[|t| - 1], identifier) then [t[|t| - 1].event.history.value] else [])
  }

  predicate Returned(e: Effect, identifier: string) { Attempts(e, identifier) && e.ok }

  /** The event of a deletion, lost because appending it raised. */
  predicate LostDeletion(e: Effect, identifier: string) {
    && e.Unjournaled? && e.event.outcome == WasDeleted
    && e.event.history.Some? && e.event.history.value.resource.identifier == identifier
  }

  function JournalSize(t: seq<Effect>): nat {
    if t == [] then 0 else JournalSize(t[..|t| - 1]) + (if t[|t| - 1].Journal? then 1 else 0)
  }

  predicate IsAttempt(e: Effect) { e.Quarantine? || e.Adopt? || e.Reconcile? || e.Delete? }

  /** An action that was performed: the gateway call returned. */
  predicate IsAction(e: Effect) {
    IsAttempt(e) && if e.Quarantine? then e.result.Some? else e.ok
  }

  function Actions(t: seq<Effect>): nat {
    if t == [] then 0 else Actions(t[..|t| - 1]) + (if IsAction(t[|t| - 1]) then 1 else 0)
  }

  lemma TalliesAfter(t: seq<Effect>, e: Effect, identifier: string)
    ensures AttemptsOf(t + [e], identifier) == AttemptsOf(t, identifier) + (if Attempts(e, identifier) then 1 else 0)
    ensures DeletesOf(t + [e], identifier)
         == DeletesOf(t, identifier) + (if Attempts(e, identifier) && e.ok then 1 else 0)
    ensures HistoriesOf(t + [e], identifier)
         == HistoriesOf(t, identifier) + (if CarriesHistory(e, identifier) then [e.event.history.value] else [])
    ensures JournalSize(t + [e]) == JournalSize(t) + (if e.Journal? then 1 else 0)
    ensures Actions(t + [e]) == Actions(t) + (if IsAction(e) then 1 else 0)
  {
    assert (t + [e])[..|t|] == t;
  }

  // ------------------------------------------------------------------------
  // When an action is justified
  // ------------------------------------------------------------------------

  /** The arguments of one run; `now` is an aware timestamp. */
  datatype Context = Context(
    scope: Scope, policy: Policy, authorization: Authorization, delete: bool, wait: int, now: int)

  /** The single observation of `identifier`, in scope, owned and expired under the policy. */
  predicate ExpiredEvidence(c: Context, observations: seq<Observation>, identifier: string) {
    var matching := Observing(observations, identifier);
    && |matching| == 1 && matching[0].scope == c.scope && matching[0].ownershipValid
    && Eligible(matching[0], c.policy, c.now)
  }

  /** Fresh answers that confirm the quarantined resource `h` may be deleted. */
  predicate DeletionConfirmed(c: Context, h: History, answer: GetAnswer, observations: seq<Observation>) {
    match answer
    case NotFound =>
      var matching := ObservingRef(observations, h.resource);
      && WaitElapsed(h, c.wait, c.now) && MayExpire(h.class_, c.policy)
      && (matching == [] || (|matching| == 1 && ConfirmedZombie(c.scope, c.policy, h, Some(matching[0]))))
    case FoundRecord(r) =>
      && c.wait <= 0 && r.pointer == h.pointer
      && ExpiredEvidence(c, observations, h.resource.identifier)
      && var current := Observing(observations, h.resource.identifier)[0];
      && LineageMatches(r, current) && current.digest == h.digest
    case GetRaised => false
  }

  ghost predicate JournaledBefore(t: seq<Effect>, k: nat, h: History)
    requires k <= |t|
  {
    exists j :: 0 <= j < k && t[j].Journal? && t[j].event.history == Some(h)
  }

  /** A journaled history allows the resource it names to be quarantined. */
  ghost predicate MayBeQuarantined(t: seq<Effect>, k: nat, c: Context, h: History)
    requires k <= |t|
  {
    JournaledBefore(t, k, h) && h.scope == c.scope && MayExpire(h.class_, c.policy)
  }

  /**
   Effect `k` of the run that began at `start` is no action, or an approved one
   with its evidence right before it in the same run.
   */
  ghost predicate Justified(t: seq<Effect>, k: nat, c: Context, start: nat)
    requires k < |t|
  {
    match t[k]
    case Quarantine(ref, result) =>
      && c.authorization.approved && (result.Some? ==> result.value.identifier == ref.identifier)
      && ((k > start && t[k - 1].Observed? && ExpiredEvidence(c, t[k - 1].observations, ref.identifier))
          || exists h :: MayBeQuarantined(t, k, c, h) && h.resource == ref)
    case Reconcile(operationId, _) =>
      && c.authorization.approved
      && k > start && t[k - 1].Got? && t[k - 1].answer.FoundRecord?
      && OperationIdOf(t[k - 1].answer.record) == operationId
    case Adopt(ref, _) =>
      && c.authorization.approved
      && k > start + 1 && t[k - 1].Quarantine? && t[k - 1].result == Some(ref)
      && t[k - 2].Observed? && ExpiredEvidence(c, t[k - 2].observations, ref.identifier)
    case Delete(ref, _) =>
      && c.authorization.approved && c.delete
      && k > start + 3 && t[k - 4].Quarantine? && t[k - 4].result == Some(ref)
      && t[k - 3].Journal? && t[k - 3].event.outcome == WasQuarantined
      && t[k - 3].event.history.Some? && t[k - 3].event.history.value.resource == ref
      && t[k - 2].Got? && t[k - 2].pointer == t[k - 3].event.history.value.pointer
      && t[k - 1].Observed?
      && DeletionConfirmed(c, t[k - 3].event.history.value, t[k - 2].answer, t[k - 1].observations)
    case _ => true
  }

  ghost predicate AllJustified(t: seq<Effect>, start: nat, c: Context) {
    forall k :: start <= k < |t| ==> Justified(t, k, c, start)
  }

  // ------------------------------------------------------------------------
  // Growing a trace
  // ------------------------------------------------------------------------

  /** From `t` to `u` nothing but reads and cleanups happened. */
  ghost predicate OnlyReads(t: seq<Effect>, u: seq<Effect>) {
    t <= u && forall k :: |t| <= k < |u| ==> !IsAttempt(u[k]) && !u[k].Journal? && !u[k].Unjournaled?
  }

  /** Histories and deletions of every resource but `id` are as they were. */
  ghost predicate Confined(t: seq<Effect>, u: seq<Effect>, id: string) {
    forall x :: x != id ==>
      && AttemptsOf(u, x) == AttemptsOf(t, x) && DeletesOf(u, x) == DeletesOf(t, x)
      && HistoriesOf(u, x) == HistoriesOf(t, x)
  }

  /** What came in: attempts to delete, deletions, histories, and how many more events than actions. */
  datatype Tally = Tally(attempts: nat, deletes: nat, histories: nat, extra: int) {
    function After(e: Effect): Tally {
      Tally(
        attempts + (if e.Delete? then 1 else 0),
        deletes + (if e.Delete? && e.ok then 1 else 0),
        histories + (if e.Journal? && e.event.history.Some? then 1 else 0),
        extra + (if e.Journal? then 1 else 0) - (if IsAction(e) then 1 else 0))
    }

    function Plus(y: Tally): Tally {
      Tally(attempts + y.attempts, deletes + y.deletes, histories + y.histories, extra + y.extra)
    }
  }

  const NOTHING := Tally(0, 0, 0, 0)

  /** From `t` to `u` every action was justified, and `y` came in, of deletions and histories only those of `id`. */
  ghost predicate Advance(t: seq<Effect>, u: seq<Effect>, c: Context, id: string, y: Tally) {
    && t <= u && AllJustified(u, |t|, c) && Confined(t, u, id)
    && AttemptsOf(u, id) == AttemptsOf(t, id) + y.attempts
    && DeletesOf(u, id) == DeletesOf(t, id) + y.deletes
    && |HistoriesOf(u, id)| == |HistoriesOf(t, id)| + y.histories
    && JournalSize(u) - Actions(u) == JournalSize(t) - Actions(t) + y.extra
  }

  lemma AdvanceByOne(t: seq<Effect>, u: seq<Effect>, c: Context, id: string, y: Tally, e: Effect)
    requires Advance(t, u, c, id, y) && Justified(u + [e], |u|, c, |t|)
    requires e.Delete? ==> e.ref.identifier == id
    requires e.Journal? && e.event.history.Some? ==> e.event.history.value.resource.identifier == id
    ensures Advance(t, u + [e], c, id, y.After(e))
  {
    TalliesAfter(u, e, id);
    forall x | x != id
      ensures AttemptsOf(u + [e], x) == AttemptsOf(t, x) && DeletesOf(u + [e], x) == DeletesOf(t, x)
      ensures HistoriesOf(u + [e], x) == HistoriesOf(t, x)
    {
      TalliesAfter(u, e, x);
    }
    forall k | |t| <= k < |u + [e]| ensures Justified(u + [e], k, c, |t|) {
      if k < |u| {
        assert Justified(u, k, c, |t|);
        JustifiedInLonger(u, e, k, c, |t|);
      }
    }
  }

  lemma JournaledInLonger(u: seq<Effect>, e: Effect, k: nat, h: History)
    requires k <= |u| && JournaledBefore(u, k, h)
    ensures JournaledBefore(u + [e], k, h)
  {
    var j :| 0 <= j < k && u[j].Journal? && u[j].event.history == Some(h);
    assert (u + [e])[j] == u[j];
  }

  lemma ZombieMayBeQuarantined(t: seq<Effect>, c: Context, h: History)
    requires c.authorization.approved && JournaledBefore(t, |t|, h)
    requires h.scope == c.scope && MayExpire(h.class_, c.policy)
    ensures forall result: Option<DatabaseRef> ::
      (result.Some? ==> result.value.identifier == h.resource.identifier) ==>
        Justified(t + [Quarantine(h.resource, result)], |t|, c, |t|)
  {
    forall result: Option<DatabaseRef> | result.Some? ==> result.value.identifier == h.resource.identifier
      ensures Justified(t + [Quarantine(h.resource, result)], |t|, c, |t|)
    {
      JournaledInLonger(t, Quarantine(h.resource, result), |t|, h);
      assert MayBeQuarantined(t + [Quarantine(h.resource, result)], |t|, c, h);
    }
  }

  lemma JustifiedInLonger(u: seq<Effect>, e: Effect, k: nat, c: Context, start: nat)
    requires k < |u| && Justified(u, k, c, start)
    ensures Justified(u + [e], k, c, start)
  {
    if u[k].Quarantine?
       && !(k > start && u[k - 1].Observed? && ExpiredEvidence(c, u[k - 1].observations, u[k].ref.identifier)) {
      var h :| MayBeQuarantined(u, k, c, h) && h.resource == u[k].ref;
      JournaledInLonger(u, e, k, h);
      assert MayBeQuarantined(u + [e], k, c, h);
    }
  }

  lemma {:induction false} AdvanceByReads(
    t: seq<Effect>, u: seq<Effect>, v: seq<Effect>, c: Context, id: string, y: Tally)
    requires Advance(t, u, c, id, y) && OnlyReads(u, v)
    ensures Advance(t, v, c, id, y)
    decreases |v|
  {
    if |v| == |u| {
      assert u == v;
    } else {
      var w, e := v[..|v| - 1], v[|v| - 1];
      AdvanceByReads(t, u, w, c, id, y);
      assert w + [e] == v;
      AdvanceByOne(t, w, c, id, y, e);
    }
  }

  lemma AdvanceStart(t: seq<Effect>, c: Context, id: string)
    ensures Advance(t, t, c, id, NOTHING)
  {
  }

  /** A recovery tries to delete once at most, after journaling a history. */
  predicate Bounded(y: Tally) {
    y.deletes <= y.attempts <= 1 && y.attempts <= y.histories
  }

  /** A deletion that returned left two histories, or one if its own event was lost right after it. */
  ghost predicate Settled(t: seq<Effect>, u: seq<Effect>, id: string) {
    forall j :: |t| <= j < |u| && Returned(u[j], id) ==>
      && j + 1 < |u|
      && |HistoriesOf(u, id)| == |HistoriesOf(t, id)| + if LostDeletion(u[j + 1], id) then 1 else 2
  }

  /** What a recovery of `id` guarantees. */
  ghost predicate Progress(t: seq<Effect>, u: seq<Effect>, c: Context, id: string, r: Recovery) {
    && Settled(t, u, id)
    && exists y :: Advance(t, u, c, id, y) && Bounded(y) && (r.Recovered? ==> y.extra == 1)
  }

  lemma AdvanceCompose(
    t: seq<Effect>, u: seq<Effect>, v: seq<Effect>, c: Context, id: string, y: Tally, z: Tally)
    requires Advance(t, u, c, id, y) && Advance(u, v, c, id, z)
    ensures Advance(t, v, c, id, y.Plus(z))
  {
    forall k | |t| <= k < |v| ensures Justified(v, k, c, |t|) {
      if k < |u| {
        assert Justified(u, k, c, |t|);
        JustifiedInExtension(u, v, k, c, |t|);
      } else {
        assert Justified(v, k, c, |u|);
      }
    }
  }

  lemma {:induction false} JustifiedInExtension(u: seq<Effect>, v: seq<Effect>, k: nat, c: Context, start: nat)
    requires u <= v && k < |u| && Justified(u, k, c, start)
    ensures Justified(v, k, c, start)
    decreases |v|
  {
    if |v| == |u| {
      assert u == v;
    } else {
      JustifiedInExtension(u, v[..|v| - 1], k, c, start);
      assert v[..|v| - 1] + [v[|v| - 1]] == v;
      JustifiedInLonger(v[..|v| - 1], v[|v| - 1], k, c, start);
    }
  }

  /** The final event of a recovery, which carries no history; only a recovery that raises can do without. */
  ghost predicate Ends(u: seq<Effect>, v: seq<Effect>, r: Recovery) {
    || (r.Aborted? && u == v)
    || (|v| == |u| + 1 && u <= v && IsFinal(v[|u|], r))
  }

  predicate IsFinal(e: Effect, r: Recovery) {
    (e.Journal? || (r.Aborted? && e.Unjournaled?)) && e.event.history.None?
  }

  /** Without an attempt to delete there is nothing to settle. */
  lemma UnattemptedIsSettled(t: seq<Effect>, u: seq<Effect>, id: string)
    requires t <= u && AttemptsOf(u, id) == AttemptsOf(t, id)
    ensures Settled(t, u, id)
  {
    AttemptsAreCounted(t, u, id);
  }

  lemma SettledByFinal(t: seq<Effect>, u: seq<Effect>, e: Effect, id: string)
    requires t <= u && Settled(t, u, id) && !e.Delete? && !CarriesHistory(e, id)
    ensures Settled(t, u + [e], id)
  {
    TalliesAfter(u, e, id);
  }

  lemma SettledByReads(t: seq<Effect>, u: seq<Effect>, v: seq<Effect>, id: string)
    requires t <= u && Settled(t, u, id) && OnlyReads(u, v)
    ensures Settled(t, v, id)
  {
    TalliesAfterReads(u, v);
    assert SameTallies(u, v, id);
  }

  lemma RaisedIsSettled(t: seq<Effect>, u: seq<Effect>, e: Effect, id: string)
    requires t <= u && AttemptsOf(u, id) == AttemptsOf(t, id) && e.Delete? && !e.ok
    ensures Settled(t, u + [e], id)
  {
    AttemptsAreCounted(t, u, id);
  }

  /** A deletion that returned after one history was journaled, and its own event, stored or lost. */
  lemma DeletionIsSettled(t: seq<Effect>, u: seq<Effect>, deletion: Effect, event: Effect, id: string)
    requires t <= u && AttemptsOf(u, id) == AttemptsOf(t, id) && |HistoriesOf(u, id)| == |HistoriesOf(t, id)| + 1
    requires deletion.Delete? && CarriesHistory(event, id) != LostDeletion(event, id)
    ensures Settled(t, u + [deletion] + [event], id)
  {
    AttemptsAreCounted(t, u, id);
    TalliesAfter(u, deletion, id);
    TalliesAfter(u + [deletion], event, id);
  }

  lemma Conclude(t: seq<Effect>, u: seq<Effect>, v: seq<Effect>, c: Context, id: string, y: Tally, r: Recovery)
    requires Advance(t, u, c, id, y) && Bounded(y) && (y.attempts == 0 || Settled(t, u, id))
    requires Ends(u, v, r) && (r.Recovered? ==> y.extra == 0)
    ensures Progress(t, v, c, id, r)
  {
    if y.attempts == 0 { UnattemptedIsSettled(t, u, id); }
    if u != v {
      assert v == u + [v[|u|]];
      AdvanceByOne(t, u, c, id, y, v[|u|]);
      assert Advance(t, v, c, id, y.After(v[|u|]));
      SettledByFinal(t, u, v[|u|], id);
    }
  }

  /** One more justified effect, neither a deletion nor a history, and then the end. */
  lemma StepThenConclude(
    t: seq<Effect>, u: seq<Effect>, e: Effect, v: seq<Effect>, c: Context, id: string, y: Tally, r: Recovery)
    requires Advance(t, u, c, id, y) && Justified(u + [e], |u|, c, |t|) && y.attempts == y.deletes == 0
    requires !e.Delete? && !(e.Journal? && e.event.history.Some?)
    requires Ends(u + [e], v, r) && (r.Recovered? ==> y.After(e).extra == 0)
    ensures Progress(t, v, c, id, r)
  {
    AdvanceByOne(t, u, c, id, y, e);
    Conclude(t, u + [e], v, c, id, y.After(e), r);
  }

  /** A justified reconciliation that returned, the event of the action, and unless that raised the final one. */
  lemma ReconciliationProgress(
    t: seq<Effect>, u: seq<Effect>, c: Context, id: string, e: Effect, action: Effect, v: seq<Effect>, r: Recovery)
    requires Advance(t, u, c, id, NOTHING)
    requires e.Reconcile? && e.ok && Justified(u + [e], |u|, c, |t|)
    requires action.Journal? || (action.Unjournaled? && r.Aborted?)
    requires action.event.history.None? && Ends(u + [e] + [action], v, r)
    ensures Progress(t, v, c, id, r)
  {
    AdvanceByOne(t, u, c, id, NOTHING, e);
    StepThenConclude(t, u + [e], action, v, c, id, Tally(0, 0, 0, -1), r);
  }

  /** A single final event is progress whatever the resource. */
  lemma ConcludeAnywhere(t: seq<Effect>, v: seq<Effect>, c: Context, r: Recovery)
    requires Ends(t, v, r)
    ensures forall id :: Progress(t, v, c, id, r)
  {
    forall id ensures Progress(t, v, c, id, r) {
      AdvanceStart(t, c, id);
      Conclude(t, t, v, c, id, NOTHING, r);
    }
  }

  lemma ReadsThenProgress(t: seq<Effect>, u: seq<Effect>, v: seq<Effect>, c: Context, id: string, r: Recovery)
    requires OnlyReads(t, u) && Progress(u, v, c, id, r)
    ensures Progress(t, v, c, id, r)
  {
    AdvanceStart(t, c, id);
    AdvanceByReads(t, t, u, c, id, NOTHING);
    var y :| Advance(u, v, c, id, y) && Bounded(y) && (r.Recovered? ==> y.extra == 1);
    AdvanceCompose(t, u, v, c, id, NOTHING, y);
    assert NOTHING.Plus(y) == y;
    TalliesAfterReads(t, u);
    assert SameTallies(t, u, id);
  }

  lemma {:induction false} HistoryIsJournaled(t: seq<Effect>, id: string, h: History)
    requires h in HistoriesOf(t, id)
    ensures JournaledBefore(t, |t|, h)
    decreases |t|
  {
    var last := t[|t| - 1];
    if CarriesHistory(last, id) && last.event.history.value == h {
      assert t[|t| - 1].event.history == Some(h);
    } else {
      HistoryIsJournaled(t[..|t| - 1], id, h);
      assert t[..|t| - 1] + [last] == t;
      JournaledInLonger(t[..|t| - 1], last, |t| - 1, h);
    }
  }

  lemma JournaledInExtension(t: seq<Effect>, u: seq<Effect>, h: History)
    requires t <= u && JournaledBefore(t, |t|, h)
    ensures JournaledBefore(u, |u|, h)
  {
    var j :| 0 <= j < |t| && t[j].Journal? && t[j].event.history == Some(h);
    assert u[j] == t[j];
  }

  lemma ProgressFacts(t: seq<Effect>, u: seq<Effect>, c: Context, id: string, r: Recovery)
    requires Progress(t, u, c, id, r)
    ensures t <= u && AllJustified(u, |t|, c) && Confined(t, u, id)
    ensures var attempts, deletes := AttemptsOf(u, id) - AttemptsOf(t, id), DeletesOf(u, id) - DeletesOf(t, id);
      && 0 <= deletes <= attempts <= 1
      && |HistoriesOf(u, id)| >= |HistoriesOf(t, id)| + attempts
    ensures Settled(t, u, id)
    ensures r.Recovered? ==> JournalSize(u) - Actions(u) == JournalSize(t) - Actions(t) + 1
  {
  }

  lemma ConfinedEverywhere(t: seq<Effect>, u: seq<Effect>, c: Context, r: Recovery)
    requires forall x :: Progress(t, u, c, x, r)
    ensures forall x :: SameTallies(t, u, x)
  {
    forall x ensures SameTallies(t, u, x) {
      var y := x + "'";
      assert |y| != |x|;
      ProgressFacts(t, u, c, y, r);
    }
  }

  ghost predicate SameTallies(t: seq<Effect>, u: seq<Effect>, id: string) {
    && AttemptsOf(u, id) == AttemptsOf(t, id) && DeletesOf(u, id) == DeletesOf(t, id)
    && HistoriesOf(u, id) == HistoriesOf(t, id)
  }

  /** A deletion that is tried again raised the time before, or its event was lost right after it returned. */
  ghost predicate RepeatedOnlyUnrecorded(t: seq<Effect>) {
    forall j, k :: 0 <= j < k < |t| && t[j].Delete? && t[k].Delete? && t[j].ref.identifier == t[k].ref.identifier ==>
      t[j].ok ==> LostDeletion(t[j + 1], t[j].ref.identifier)
  }

  /** Whoever was deleted has two histories, or the event of the deletion was lost right after it. */
  ghost predicate DeletedIsRecorded(t: seq<Effect>, j: nat)
    requires j < |t| && t[j].Delete?
  {
    var id := t[j].ref.identifier;
    t[j].ok ==> (j + 1 < |t| && LostDeletion(t[j + 1], id)) || |HistoriesOf(t, id)| >= 2
  }

  /** At most two attempts per resource, each of which left a history behind. */
  ghost predicate RecordedFor(t: seq<Effect>, id: string) {
    AttemptsOf(t, id) <= 2 && AttemptsOf(t, id) <= |HistoriesOf(t, id)|
  }

  ghost predicate Recorded(t: seq<Effect>) {
    && RepeatedOnlyUnrecorded(t)
    && (forall id :: RecordedFor(t, id))
    && forall j: nat :: j < |t| && t[j].Delete? ==> DeletedIsRecorded(t, j)
  }

  /** Attempts in the part of `u` after `t` are counted. */
  lemma {:induction false} AttemptsAreCounted(t: seq<Effect>, u: seq<Effect>, id: string)
    requires t <= u
    ensures AttemptsOf(u, id) >= AttemptsOf(t, id)
    ensures AttemptsOf(u, id) == AttemptsOf(t, id) ==> forall k :: |t| <= k < |u| ==> !Attempts(u[k], id)
    ensures AttemptsOf(u, id) == AttemptsOf(t, id) + 1 ==>
      forall j, k :: |t| <= j < k < |u| ==> !(Attempts(u[j], id) && Attempts(u[k], id))
    decreases |u|
  {
    if |u| == |t| {
      assert u == t;
    } else {
      AttemptsAreCounted(t, u[..|u| - 1], id);
    }
  }

  /** New attempts of one resource, and only while it has one history at most. */
  lemma RepeatsStayUnrecorded(t: seq<Effect>, u: seq<Effect>, id: string)
    requires Recorded(t) && t <= u
    requires forall x :: x != id ==> AttemptsOf(u, x) == AttemptsOf(t, x)
    requires AttemptsOf(u, id) <= AttemptsOf(t, id) + 1
    requires AttemptsOf(u, id) > AttemptsOf(t, id) ==> |HistoriesOf(t, id)| <= 1
    ensures RepeatedOnlyUnrecorded(u)
  {
    forall j, k | 0 <= j < k < |u| && u[j].Delete? && u[k].Delete? && u[j].ref.identifier == u[k].ref.identifier
      && u[j].ok
      ensures LostDeletion(u[j + 1], u[j].ref.identifier)
    {
      var x := u[k].ref.identifier;
      AttemptsAreCounted(t, u, x);
      assert Attempts(u[j], x) && Attempts(u[k], x);
      assert t[j] == u[j];
      if k >= |t| {
        assert DeletedIsRecorded(t, j);
        assert t[j + 1] == u[j + 1];
      } else {
        assert t[k] == u[k] && t[j + 1] == u[j + 1];
      }
    }
  }

  lemma {:induction false} HistoriesOnlyGrow(t: seq<Effect>, u: seq<Effect>, id: string)
    requires t <= u
    ensures |HistoriesOf(t, id)| <= |HistoriesOf(u, id)|
    decreases |u|
  {
    if |u| == |t| { assert u == t; } else { HistoriesOnlyGrow(t, u[..|u| - 1], id); }
  }

  /** Deletions stay on record, and the new ones of `id` are settled. */
  lemma DeletionsStayRecorded(t: seq<Effect>, u: seq<Effect>, id: string)
    requires Recorded(t) && t <= u && Settled(t, u, id)
    requires forall x :: x != id ==> AttemptsOf(u, x) == AttemptsOf(t, x)
    ensures forall j: nat :: j < |u| && u[j].Delete? ==> DeletedIsRecorded(u, j)
  {
    forall j: nat | j < |u| && u[j].Delete? ensures DeletedIsRecorded(u, j) {
      var x := u[j].ref.identifier;
      HistoriesOnlyGrow(t, u, x);
      if j < |t| {
        assert t[j] == u[j] && DeletedIsRecorded(t, j);
        assert j + 1 < |t| ==> t[j + 1] == u[j + 1];
      } else {
        assert x == id by {
          AttemptsAreCounted(t, u, x);
          assert Attempts(u[j], x);
        }
        assert u[j].ok ==> Returned(u[j], id);
      }
    }
  }

  function HistoryIdentifiers(t: seq<Effect>): (ids: set<string>)
    ensures forall id :: id in ids <==> HistoriesOf(t, id) != []
  {
    if t == [] then {} else
      HistoryIdentifiers(t[..|t| - 1])
      + (if t[|t| - 1].Journal? && t[|t| - 1].event.history.Some?
         then {t[|t| - 1].event.history.value.resource.identifier} else {})
  }

  /** Every identifier the registry, the provider or the journal knows of. */
  function KeysOf(records: seq<InstanceRecord>, observations: seq<Observation>, journal: seq<Effect>): set<Key> {
    (set r | r in records :: Key(r.kind, r.identifier))
    + (set o | o in observations :: Key("database", o.ref.identifier))
    + (set id | id in HistoryIdentifiers(journal) :: Key("database", id))
  }

  lemma {:induction false} TalliesAfterReads(t: seq<Effect>, u: seq<Effect>)
    requires OnlyReads(t, u)
    ensures forall id :: SameTallies(t, u, id)
    ensures JournalSize(u) == JournalSize(t) && Actions(u) == Actions(t)
    ensures HistoryIdentifiers(u) == HistoryIdentifiers(t)
    decreases |u|
  {
    if |u| == |t| {
      assert u == t;
    } else {
      TalliesAfterReads(t, u[..|u| - 1]);
      forall id ensures SameTallies(t, u, id) { assert SameTallies(t, u[..|u| - 1], id); }
    }
  }

  lemma SameTalliesKeepRecorded(t: seq<Effect>, u: seq<Effect>)
    requires Recorded(t) && t <= u && forall id :: SameTallies(t, u, id)
    ensures Recorded(u)
  {
    assert forall id :: SameTallies(t, u, id) ==> AttemptsOf(u, id) == AttemptsOf(t, id);
    RepeatsStayUnrecorded(t, u, "");
    UnattemptedIsSettled(t, u, "");
    DeletionsStayRecorded(t, u, "");
    forall id ensures RecordedFor(u, id) { assert RecordedFor(t, id) && SameTallies(t, u, id); }
  }

  /** Working off one key keeps the bounds on deletions and attempts over the whole trace. */
  lemma KeyKeepsRecorded(t: seq<Effect>, u: seq<Effect>, c: Context, id: string, r: Recovery)
    requires Recorded(t) && Progress(t, u, c, id, r)
    requires |HistoriesOf(t, id)| > 1 ==> AttemptsOf(u, id) == AttemptsOf(t, id)
    ensures Recorded(u)
  {
    ProgressFacts(t, u, c, id, r);
    RepeatsStayUnrecorded(t, u, id);
    DeletionsStayRecorded(t, u, id);
    forall x ensures RecordedFor(u, x) { assert RecordedFor(t, x); }
  }

  lemma SettledTells(t: seq<Effect>, u: seq<Effect>, id: string, j: nat)
    requires Settled(t, u, id) && |t| <= j < |u| && Returned(u[j], id)
    ensures j + 1 < |u|
    ensures |HistoriesOf(u, id)| == |HistoriesOf(t, id)| + if LostDeletion(u[j + 1], id) then 1 else 2
  {
  }

  /** What the journal says after a recovery that deleted: it leaves room for another one in a single case. */
  lemma MayRepeatIff(t: seq<Effect>, u: seq<Effect>, c: Context, id: string, r: Recovery, j: nat)
    requires Progress(t, u, c, id, r) && |t| <= j < |u| && Returned(u[j], id)
    ensures j + 1 < |u|
    ensures |HistoriesOf(u, id)| <= 1 <==> HistoriesOf(t, id) == [] && LostDeletion(u[j + 1], id)
  {
    SettledTells(t, u, id, j);
  }

  /** Some deletion of the resource returned, and appending its event lost it. */
  ghost predicate LosesDeletion(t: seq<Effect>, id: string) {
    exists j: nat :: j + 1 < |t| && Returned(t[j], id) && LostDeletion(t[j + 1], id)
  }

  /** Two deletions that returned are two positions in the trace. */
  lemma {:induction false} DeletesAreCounted(t: seq<Effect>, id: string) returns (k: nat)
    ensures DeletesOf(t, id) >= 1 ==> k < |t| && Returned(t[k], id) && DeletesOf(t[..k], id) == DeletesOf(t, id) - 1
    decreases |t|
  {
    k := 0;
    if t != [] {
      k := |t| - 1;
      if !Returned(t[k], id) {
        k := DeletesAreCounted(t[..|t| - 1], id);
        assert DeletesOf(t, id) >= 1 ==> t[..|t| - 1][..k] == t[..k];
      }
    }
  }

  /** Unless the event of a deletion was lost right after it, no two deletions of a resource return. */
  lemma TwiceDeletedWasLost(t: seq<Effect>, id: string)
    requires Recorded(t) && DeletesOf(t, id) > 1
    ensures LosesDeletion(t, id)
  {
    var k := DeletesAreCounted(t, id);
    var j := DeletesAreCounted(t[..k], id);
    assert t[j] == t[..k][j] && LostDeletion(t[j + 1], id);
  }

  lemma ReadsKeepRecorded(t: seq<Effect>, u: seq<Effect>, c: Context, start: nat)
    requires OnlyReads(t, u) && Recorded(t) && start <= |t| && AllJustified(t, start, c)
    ensures Recorded(u) && AllJustified(u, start, c)
    ensures HistoryIdentifiers(u) == HistoryIdentifiers(t)
  {
    TalliesAfterReads(t, u);
    SameTalliesKeepRecorded(t, u);
    forall k | start <= k < |u| ensures Justified(u, k, c, start) {
      if k < |t| {
        assert Justified(t, k, c, start);
        JustifiedInExtension(t, u, k, c, start);
      }
    }
  }

  lemma EventKeepsTallies(t0: seq<Effect>, start: seq<Effect>, e: Effect, id: string)
    requires SameTallies(t0, start, id) && (e.Journal? || e.Unjournaled?) && e.event.history.None?
    ensures SameTallies(t0, start + [e], id) && HistoriesOf(start + [e], id) == HistoriesOf(start, id)
  {
    TalliesAfter(start, e, id);
  }

  lemma UnattemptedIsJustified(t: seq<Effect>, u: seq<Effect>, c: Context)
    requires t <= u && forall k :: |t| <= k < |u| ==> !IsAttempt(u[k])
    ensures AllJustified(u, |t|, c)
  {
  }

  lemma RunEventKeepsRecorded(t0: seq<Effect>, start: seq<Effect>, c: Context, e: Effect)
    requires OnlyReads(t0, start) && Recorded(t0)
    requires (e.Journal? || e.Unjournaled?) && e.event.history.None?
    ensures Recorded(start + [e]) && AllJustified(start + [e], |t0|, c)
    ensures forall id :: HistoriesOf(start + [e], id) == HistoriesOf(start, id)
  {
    TalliesAfterReads(t0, start);
    forall id ensures SameTallies(t0, start + [e], id) && HistoriesOf(start + [e], id) == HistoriesOf(start, id) {
      EventKeepsTallies(t0, start, e, id);
    }
    SameTalliesKeepRecorded(t0, start + [e]);
    UnattemptedIsJustified(t0, start + [e], c);
  }

  lemma RunEventIsUnderway(t0: seq<Effect>, start: seq<Effect>, c: Context, keys: set<Key>, e: Effect)
    requires OnlyReads(t0, start) && Recorded(t0) && e.Journal? && e.event.history.None?
    ensures Underway(t0, start, start + [e], c, keys, keys, 0)
  {
    RunEventKeepsRecorded(t0, start, c, e);
    TalliesAfterReads(t0, start);
    TalliesAfter(start, e, "");
  }

  /** The run that continued `t0` listed, observed, and worked on `keys`. */
  ghost predicate Begun(t0: seq<Effect>, t: seq<Effect>, keys: set<Key>) {
    && |t| >= |t0| + 3 && t[|t0|].Listed? && t[|t0| + 1].Observed?
    && keys == KeysOf(t[|t0|].records, t[|t0| + 1].observations, t0)
  }

  /** Where run `i` of a sequence of runs ends. */
  function RunEnd(starts: seq<nat>, i: nat, t: seq<Effect>): nat
    requires i < |starts|
  {
    if i + 1 < |starts| then starts[i + 1] else |t|
  }

  /** Run `i` goes from `starts[i]` to the next start, and its effects are justified by its own arguments. */
  ghost predicate RunsJustified(t: seq<Effect>, contexts: seq<Context>, starts: seq<nat>)
    requires |starts| <= |contexts|
  {
    && (forall i :: 0 <= i < |starts| ==> starts[i] <= RunEnd(starts, i, t) <= |t|)
    && forall i, k :: 0 <= i < |starts| && starts[i] <= k < RunEnd(starts, i, t) ==>
      Justified(t, k, contexts[i], starts[i])
  }

  /** One more run after the others. */
  lemma RunAppended(t: seq<Effect>, u: seq<Effect>, contexts: seq<Context>, starts: seq<nat>)
    requires |starts| < |contexts| && RunsJustified(t, contexts, starts) && t <= u
    requires AllJustified(u, |t|, contexts[|starts|])
    ensures RunsJustified(u, contexts, starts + [|t|])
  {
    var more := starts + [|t|];
    forall i, k | 0 <= i < |more| && more[i] <= k < RunEnd(more, i, u) ensures Justified(u, k, contexts[i], more[i]) {
      if i < |starts| {
        assert RunEnd(more, i, u) == RunEnd(starts, i, t);
        assert Justified(t, k, contexts[i], starts[i]);
        JustifiedInExtension(t, u, k, contexts[i], starts[i]);
      }
    }
    forall i | 0 <= i < |more| ensures more[i] <= RunEnd(more, i, u) <= |u| {
      if i < |starts| { assert RunEnd(more, i, u) == RunEnd(starts, i, t); }
    }
  }

  /** A run that started at `t0`, read the journal at `start`, and has worked off all of `keys` but `todo`. */
  ghost predicate Underway(
    t0: seq<Effect>, start: seq<Effect>, t: seq<Effect>, c: Context, keys: set<Key>, todo: set<Key>, done: nat)
  {
    && t0 <= start <= t && todo <= keys && done + |todo| == |keys|
    && Recorded(t) && AllJustified(t, |t0|, c)
    && (forall id :: Key("database", id) in todo ==> HistoriesOf(t, id) == HistoriesOf(start, id))
    && JournalSize(t) - Actions(t) == JournalSize(t0) - Actions(t0) + 1 + done
  }

  lemma KeyDone(
    t0: seq<Effect>, start: seq<Effect>, t: seq<Effect>, u: seq<Effect>, c: Context,
    keys: set<Key>, todo: set<Key>, key: Key, done: nat, r: Recovery)
    requires Underway(t0, start, t, c, keys, todo, done) && key in todo
    requires Progress(t, u, c, key.identifier, r)
    requires key.kind != "database" ==> forall x :: Progress(t, u, c, x, r)
    requires key.kind == "database" && |HistoriesOf(start, key.identifier)| > 1 ==>
      AttemptsOf(u, key.identifier) == AttemptsOf(t, key.identifier)
    ensures t0 <= start <= u && Recorded(u) && AllJustified(u, |t0|, c)
    ensures r.Recovered? ==> Underway(t0, start, u, c, keys, todo - {key}, done + 1)
  {
    ProgressFacts(t, u, c, key.identifier, r);
    if key.kind != "database" {
      ConfinedEverywhere(t, u, c, r);
      SameTalliesKeepRecorded(t, u);
    } else {
      assert key == Key("database", key.identifier);
      KeyKeepsRecorded(t, u, c, key.identifier, r);
    }
    forall k | |t0| <= k < |u| ensures Justified(u, k, c, |t0|) {
      if k < |t| {
        assert Justified(t, k, c, |t0|);
        JustifiedInExtension(t, u, k, c, |t0|);
      } else {
        assert Justified(u, k, c, |t|);
      }
    }
    forall id | Key("database", id) in todo - {key} ensures HistoriesOf(u, id) == HistoriesOf(start, id) {
      if key.kind == "database" { assert id != key.identifier; } else { assert SameTallies(t, u, id); }
    }
  }

  // ------------------------------------------------------------------------
  // The service
  // ------------------------------------------------------------------------

  class LifecycleService {
    const maxCleanupRetries: nat
    var trace: seq<Effect>

    constructor (maxCleanupRetries: nat)
      ensures this.maxCleanupRetries == maxCleanupRetries && trace == []
    {
      this.maxCleanupRetries := maxCleanupRetries;
      trace := [];
    }

    method Emit(e: Effect)
      modifies this
      ensures trace == old(trace) + [e]
    {
      trace := trace + [e];
    }

    // -- ports: arbitrary answers ---------------------------------------------

    method RegistryGet(pointer: Pointer) returns (answer: GetAnswer)
      modifies this
      ensures trace == old(trace) + [Got(pointer, answer)] && OnlyReads(old(trace), trace)
    {
      answer := *;
      Emit(Got(pointer, answer));
    }

    method Observe() returns (answer: Option<seq<Observation>>)
      modifies this
      ensures OnlyReads(old(trace), trace)
      ensures trace == old(trace) + [if answer.Some? then Observed(answer.value) else CallRaised]
    {
      answer := *;
      Emit(if answer.Some? then Observed(answer.value) else CallRaised);
    }

    method RegistryList() returns (answer: Option<seq<InstanceRecord>>)
      modifies this
      ensures OnlyReads(old(trace), trace)
      ensures trace == old(trace) + [if answer.Some? then Listed(answer.value) else CallRaised]
    {
      answer := *;
      Emit(if answer.Some? then Listed(answer.value) else CallRaised);
    }

    method CleanUpOnce() returns (residuals: Option<seq<string>>)
      modifies this
      ensures OnlyReads(old(trace), trace)
      ensures trace == old(trace) + [if residuals.Some? then Cleanup(residuals.value) else CallRaised]
    {
      residuals := *;
      Emit(if residuals.Some? then Cleanup(residuals.value) else CallRaised);
    }

    /** Bounded retries: every attempt but the last left residuals; the last one is reported. */
    method CleanUp() returns (residuals: Option<seq<string>>)
      modifies this
      ensures OnlyReads(old(trace), trace)
      ensures forall k :: |old(trace)| <= k < |trace| - 1 ==> trace[k].Cleanup? && trace[k].residuals != []
      ensures |trace| <= |old(trace)| + maxCleanupRetries + 1
      ensures |trace| > |old(trace)|
      ensures trace[|trace| - 1] == if residuals.Some? then Cleanup(residuals.value) else CallRaised
      ensures residuals.Some? && residuals.value != [] ==> |trace| == |old(trace)| + maxCleanupRetries + 1
    {
      residuals := Some([]);
      var attempt := 0;
      while attempt <= maxCleanupRetries
        invariant attempt <= maxCleanupRetries + 1
        invariant OnlyReads(old(trace), trace) && |trace| == |old(trace)| + attempt
        invariant attempt > 0 ==> residuals.Some? && trace[|trace| - 1] == Cleanup(residuals.value)
        invariant forall k :: |old(trace)| <= k < |trace| ==> trace[k].Cleanup? && trace[k].residuals != []
      {
        residuals := CleanUpOnce();
        if residuals.None? || residuals.value == [] { return; }
        attempt := attempt + 1;
      }
    }

    /** Quarantine keeps the identifier of what it quarantines. */
    method QuarantineResource(ref: DatabaseRef) returns (result: Option<DatabaseRef>)
      modifies this
      ensures trace == old(trace) + [Quarantine(ref, result)]
      ensures result.Some? ==> result.value.identifier == ref.identifier
    {
      var raised: bool := *;
      var ownership: Ownership := *;
      result := if raised then None else Some(DatabaseRef(ref.identifier, ownership));
      Emit(Quarantine(ref, result));
    }

    /** Adopting, reconciling or deleting: the call returns or raises. */
    method Adopting(ref: DatabaseRef) returns (ok: bool)
      modifies this
      ensures trace == old(trace) + [Adopt(ref, ok)]
    {
      ok := *;
      Emit(Adopt(ref, ok));
    }

    method Reconciling(operationId: string) returns (ok: bool)
      modifies this
      ensures trace == old(trace) + [Reconcile(operationId, ok)]
    {
      ok := *;
      Emit(Reconcile(operationId, ok));
    }

    method Deleting(ref: DatabaseRef) returns (ok: bool)
      modifies this
      ensures trace == old(trace) + [Delete(ref, ok)]
    {
      ok := *;
      Emit(Delete(ref, ok));
    }

    // -- journal -----------------------------------------------------------------

    /** Appending to the journal may raise, with the event stored or lost. */
    method Append(event: Event) returns (ok: bool)
      modifies this
      ensures trace == old(trace) + [Journal(event)] || (!ok && trace == old(trace) + [Unjournaled(event)])
    {
      var stored: bool := *;
      var raised: bool := *;
      Emit(if stored then Journal(event) else Unjournaled(event));
      return stored && !raised;
    }

    method AppendAction(c: Context, outcome: Outcome, digest: string, history: Option<History>) returns (ok: bool)
      modifies this
      ensures var event := Event(c.policy, c.authorization, outcome, digest, [], history, "action");
        trace == old(trace) + [Journal(event)] || (!ok && trace == old(trace) + [Unjournaled(event)])
    {
      ok := Append(Event(c.policy, c.authorization, outcome, digest, [], history, "action"));
    }

    method Finish(c: Context, code: string, outcome: Outcome, digest: string, details: seq<string>)
      returns (r: Recovery)
      modifies this
      ensures Ends(old(trace), trace, r) && |trace| == |old(trace)| + 1
      ensures r.Recovered? ==> r.result.outcome == outcome
      ensures r.Recovered? ==>
        trace[|old(trace)|]
        == Journal(Event(c.policy, c.authorization, outcome, digest, r.result.residuals, None, "action"))
      ensures r.Recovered? ==>
        (r.result.residuals == [] <==>
         details == [] && code in {"adopted", "quarantined", "registry-only", "deleted"})
    {
      var values := seq(|details|, i requires 0 <= i < |details| => Residual(code, details[i]));
      if values == [] && code !in {"adopted", "quarantined", "registry-only", "deleted"} {
        values := [Residual(code, code)];
      }
      var ok := Append(Event(c.policy, c.authorization, outcome, digest, values, None, "action"));
      return if ok then Recovered(RecoveryResult(outcome, values)) else Aborted;
    }

    method Human(c: Context, code: string, digest: string) returns (r: Recovery)
      modifies this
      ensures Ends(old(trace), trace, r) && |trace| == |old(trace)| + 1
      ensures r.Recovered? ==> r.result.outcome == HumanIntervention
    {
      r := Finish(c, code, HumanIntervention, digest, []);
    }

    // -- revalidation --------------------------------------------------------------

    /** Whether the registry still answers with this very record; `None` when it raises. */
    method RegistryMatches(record: InstanceRecord) returns (r: Option<bool>)
      modifies this
      ensures OnlyReads(old(trace), trace)
      ensures r == Some(true) ==> trace == old(trace) + [Got(record.pointer, FoundRecord(record))]
    {
      var answer := RegistryGet(record.pointer);
      match answer
      case FoundRecord(found) => return Some(found == record);
      case NotFound => return Some(false);
      case GetRaised => return None;
    }

    method Revalidate(c: Context, record: Option<InstanceRecord>, expected: Observation) returns (r: Check)
      modifies this
      ensures OnlyReads(old(trace), trace)
      ensures r.Passed? ==>
        && |trace| == |old(trace)| + (if record.Some? then 2 else 1)
        && trace[|trace| - 1].Observed?
        && ExpiredEvidence(c, trace[|trace| - 1].observations, expected.ref.identifier)
        && var current := Observing(trace[|trace| - 1].observations, expected.ref.identifier)[0];
        && current.digest == expected.digest
        && (record.Some? ==>
              && trace[|trace| - 2] == Got(record.value.pointer, FoundRecord(record.value))
              && LineageMatches(record.value, current))
    {
      if record.Some? {
        var matches := RegistryMatches(record.value);
        if matches.None? { return Raised; }
        if !matches.value { return FailedCheck("registry-drift", expected.digest); }
      }
      var observations := Observe();
      if observations.None? { return Raised; }
      var matching := Observing(observations.value, expected.ref.identifier);
      if |matching| != 1 { return FailedCheck("evidence-drift", "missing"); }
      var current := matching[0];
      if current.scope != c.scope { return FailedCheck("scope-mismatch", current.digest); }
      if !Eligible(current, c.policy, c.now) { return FailedCheck("ineligible", current.digest); }
      if !current.ownershipValid { return FailedCheck("invalid-ownership", current.digest); }
      if record.Some? && !LineageMatches(record.value, current) {
        return FailedCheck("lineage-mismatch", current.digest);
      }
      if record.None? && current.receipt != expected.receipt { return FailedCheck("lineage-mismatch", current.digest); }
      if current.digest != expected.digest { return FailedCheck("evidence-drift", current.digest); }
      return Passed;
    }

    method RevalidateZombie(c: Context, h: History) returns (r: Option<bool>)
      modifies this
      ensures OnlyReads(old(trace), trace)
      ensures r == Some(true) ==>
        && |trace| == |old(trace)| + 2
        && trace[|trace| - 2] == Got(h.pointer, NotFound)
        && trace[|trace| - 1].Observed?
        && var matching := ObservingRef(trace[|trace| - 1].observations, h.resource);
           matching == [] || (|matching| == 1 && ConfirmedZombie(c.scope, c.policy, h, Some(matching[0])))
    {
      var answer := RegistryGet(h.pointer);
      if answer == GetRaised { return None; }
      if answer != NotFound { return Some(false); }
      var observations := Observe();
      if observations.None? { return None; }
      var matching := ObservingRef(observations.value, h.resource);
      return Some(|matching| == 0 || (|matching| == 1 && ConfirmedZombie(c.scope, c.policy, h, Some(matching[0]))));
    }

    // -- recovering one resource -----------------------------------------------------

    /** Quarantine and its journal event: the state from which a deletion may follow. */
    method QuarantineAndJournal(c: Context, ref: DatabaseRef, digest: string, history: History, ghost t: seq<Effect>)
      returns (h: Option<History>, ghost y: Tally)
      requires history.resource.identifier == ref.identifier && Advance(t, trace, c, ref.identifier, NOTHING)
      requires forall result: Option<DatabaseRef> :: (result.Some? ==> result.value.identifier == ref.identifier) ==>
        Justified(trace + [Quarantine(ref, result)], |trace|, c, |t|)
      modifies this
      ensures old(trace) <= trace && Advance(t, trace, c, ref.identifier, y)
      ensures y.attempts == y.deletes == 0 && (h.Some? ==> y == Tally(0, 0, 1, 0))
      ensures h.Some? ==>
        && h.value == history.(resource := h.value.resource) && h.value.resource.identifier == ref.identifier
        && trace == old(trace) + [Quarantine(ref, Some(h.value.resource)), Journal(
             Event(c.policy, c.authorization, WasQuarantined, digest, [], h, "action"))]
    {
      ghost var u := trace;
      var quarantined := QuarantineResource(ref);
      AdvanceByOne(t, u, c, ref.identifier, NOTHING, Quarantine(ref, quarantined));
      if quarantined.None? { return None, NOTHING; }
      h := Some(history.(resource := quarantined.value));
      var ok;
      ok, y := JournalQuarantine(c, digest, h.value, t);
      if !ok { h := None; }
    }

    method JournalQuarantine(c: Context, digest: string, h: History, ghost t: seq<Effect>)
      returns (ok: bool, ghost y: Tally)
      requires Advance(t, trace, c, h.resource.identifier, Tally(0, 0, 0, -1))
      modifies this
      ensures old(trace) <= trace && Advance(t, trace, c, h.resource.identifier, y)
      ensures y.attempts == y.deletes == 0 && (ok ==> y == Tally(0, 0, 1, 0))
      ensures ok ==>
        var event := Event(c.policy, c.authorization, WasQuarantined, digest, [], Some(h), "action");
        trace == old(trace) + [Journal(event)]
    {
      ghost var v := trace;
      ok := AppendAction(c, WasQuarantined, digest, Some(h));
      AdvanceByOne(t, v, c, h.resource.identifier, Tally(0, 0, 0, -1), trace[|v|]);
      y := Tally(0, 0, 0, -1).After(trace[|v|]);
    }

    /** The deletion itself, its journal event, bounded cleanup and the final event. */
    method DeleteAndCleanUp(c: Context, ref: DatabaseRef, digest: string, h: History, ghost t: seq<Effect>)
      returns (r: Recovery)
      requires Advance(t, trace, c, ref.identifier, Tally(0, 0, 1, 0))
      requires forall ok :: Justified(trace + [Delete(ref, ok)], |trace|, c, |t|)
      requires h.resource == ref
      modifies this
      ensures Progress(t, trace, c, ref.identifier, r)
    {
      ghost var u0, id := trace, ref.identifier;
      var deleted := Deleting(ref);
      AdvanceByOne(t, u0, c, id, Tally(0, 0, 1, 0), Delete(ref, deleted));
      ghost var u1 := trace;
      if !deleted {
        RaisedIsSettled(t, u0, Delete(ref, deleted), id);
        Conclude(t, u1, trace, c, id, Tally(1, 0, 1, 0), Aborted);
        return Aborted;
      }
      r := RecordDeletion(c, ref, digest, h, t, u0);
    }

    /** The deletion has just returned. */
    method RecordDeletion(
      c: Context, ref: DatabaseRef, digest: string, h: History, ghost t: seq<Effect>, ghost u: seq<Effect>)
      returns (r: Recovery)
      requires Advance(t, u, c, ref.identifier, Tally(0, 0, 1, 0)) && trace == u + [Delete(ref, true)]
      requires Advance(t, trace, c, ref.identifier, Tally(1, 1, 1, -1)) && h.resource == ref
      modifies this
      ensures Progress(t, trace, c, ref.identifier, r)
    {
      ghost var v, id := trace, ref.identifier;
      var ok := AppendAction(c, WasDeleted, digest, Some(h));
      ghost var e := trace[|v|];
      AdvanceByOne(t, v, c, id, Tally(1, 1, 1, -1), e);
      DeletionIsSettled(t, u, Delete(ref, true), e, id);
      if ok {
        r := CleanUpAndFinish(c, id, t);
      } else {
        Conclude(t, trace, trace, c, id, Tally(1, 1, 1, -1).After(e), Aborted);
        r := Aborted;
      }
    }

    method CleanUpAndFinish(c: Context, ghost id: string, ghost t: seq<Effect>) returns (r: Recovery)
      requires Advance(t, trace, c, id, Tally(1, 1, 2, 0)) && Settled(t, trace, id)
      modifies this
      ensures Progress(t, trace, c, id, r)
    {
      ghost var u := trace;
      var residuals := CleanUp();
      AdvanceByReads(t, u, trace, c, id, Tally(1, 1, 2, 0));
      SettledByReads(t, u, trace, id);
      ghost var v := trace;
      if residuals.None? {
        r := Aborted;
      } else if residuals.value != [] {
        r := Finish(c, "partial-cleanup", HumanIntervention, "registry", residuals.value);
      } else {
        r := Finish(c, "deleted", WasDeleted, "registry", []);
      }
      Conclude(t, v, trace, c, id, Tally(1, 1, 2, 0), r);
    }

    /** The journaled quarantine of a zombie, looked at again right before the deletion. */
    method DeleteIfConfirmed(c: Context, h: History, ghost t: seq<Effect>) returns (r: Recovery)
      requires c.authorization.approved && c.delete && WaitElapsed(h, c.wait, c.now) && MayExpire(h.class_, c.policy)
      requires Advance(t, trace, c, h.resource.identifier, Tally(0, 0, 1, 0)) && |trace| >= |t| + 2
      requires trace[|trace| - 2].Quarantine? && trace[|trace| - 2].result == Some(h.resource)
      requires trace[|trace| - 1].Journal? && trace[|trace| - 1].event.outcome == WasQuarantined
      requires trace[|trace| - 1].event.history == Some(h)
      modifies this
      ensures Progress(t, trace, c, h.resource.identifier, r)
    {
      ghost var u, id := trace, h.resource.identifier;
      var confirmed := RevalidateZombie(c, h);
      AdvanceByReads(t, u, trace, c, id, Tally(0, 0, 1, 0));
      ghost var v := trace;
      if confirmed.None? {
        Conclude(t, v, trace, c, id, Tally(0, 0, 1, 0), Aborted);
        return Aborted;
      }
      if !confirmed.value {
        r := Human(c, "not-confirmed-zombie", "registry");
        Conclude(t, v, trace, c, id, Tally(0, 0, 1, 0), r);
        return;
      }
      r := DeleteAndCleanUp(c, h.resource, "registry", h, t);
    }

    /** No record in the registry, but a journaled quarantine. */
    method RecoverZombie(c: Context, h: History, observation: Option<Observation>) returns (r: Recovery)
      requires c.authorization.approved && JournaledBefore(trace, |trace|, h)
      modifies this
      ensures Progress(old(trace), trace, c, h.resource.identifier, r)
    {
      ghost var t, id := trace, h.resource.identifier;
      AdvanceStart(t, c, id);
      if !ConfirmedZombie(c.scope, c.policy, h, observation) {
        r := Human(c, "not-confirmed-zombie", "registry");
        Conclude(t, t, trace, c, id, NOTHING, r);
        return;
      }
      if c.delete && !WaitElapsed(h, c.wait, c.now) {
        r := Human(c, "quarantine-wait", "registry");
        Conclude(t, t, trace, c, id, NOTHING, r);
        return;
      }
      ZombieMayBeQuarantined(t, c, h);
      var quarantined; ghost var y;
      quarantined, y := QuarantineAndJournal(c, h.resource, "registry", h, t);
      ghost var u := trace;
      if quarantined.None? {
        Conclude(t, u, trace, c, id, y, Aborted);
        return Aborted;
      }
      var h' := quarantined.value;
      if !c.delete {
        r := Finish(c, "confirmed-zombie", WasQuarantined, "registry", []);
        Conclude(t, u, trace, c, id, Tally(0, 0, 1, 0), r);
        return;
      }
      r := DeleteIfConfirmed(c, h', t);
    }

    /** Observed by the provider but unknown to the registry: quarantine, then adopt. */
    method RecoverOrphan(c: Context, o: Observation) returns (r: Recovery)
      requires c.authorization.approved
      modifies this
      ensures Progress(old(trace), trace, c, o.ref.identifier, r)
    {
      ghost var t, id := trace, o.ref.identifier;
      AdvanceStart(t, c, id);
      if !o.ownershipValid {
        r := Human(c, "invalid-ownership", "registry");
        Conclude(t, t, trace, c, id, NOTHING, r);
        return;
      }
      var check := Revalidate(c, None, o);
      AdvanceByReads(t, t, trace, c, id, NOTHING);
      ghost var u := trace;
      if check.Raised? {
        Conclude(t, u, trace, c, id, NOTHING, Aborted);
        return Aborted;
      }
      if check.FailedCheck? {
        r := Human(c, check.code, check.digest);
        Conclude(t, u, trace, c, id, NOTHING, r);
        return;
      }
      r := AdoptOrphan(c, o, t);
    }

    /** After a passed revalidation: quarantine, then adopt. */
    method AdoptOrphan(c: Context, o: Observation, ghost t: seq<Effect>) returns (r: Recovery)
      requires c.authorization.approved && Advance(t, trace, c, o.ref.identifier, NOTHING)
      requires |trace| > |t| && trace[|trace| - 1].Observed?
        && ExpiredEvidence(c, trace[|trace| - 1].observations, o.ref.identifier)
      modifies this
      ensures Progress(t, trace, c, o.ref.identifier, r)
    {
      ghost var u, id := trace, o.ref.identifier;
      var quarantined := QuarantineResource(o.ref);
      AdvanceByOne(t, u, c, id, NOTHING, trace[|u|]);
      ghost var v := trace;
      if quarantined.None? {
        Conclude(t, v, trace, c, id, NOTHING, Aborted);
        return Aborted;
      }
      var adopted := Adopting(quarantined.value);
      AdvanceByOne(t, v, c, id, Tally(0, 0, 0, -1), trace[|v|]);
      if !adopted {
        Conclude(t, trace, trace, c, id, Tally(0, 0, 0, -1), Aborted);
        return Aborted;
      }
      r := ReportAdoption(c, o, t);
    }

    method ReportAdoption(c: Context, o: Observation, ghost t: seq<Effect>) returns (r: Recovery)
      requires Advance(t, trace, c, o.ref.identifier, Tally(0, 0, 0, -2))
      modifies this
      ensures Progress(t, trace, c, o.ref.identifier, r)
    {
      ghost var u, id := trace, o.ref.identifier;
      var ok := AppendAction(c, WasQuarantined, "registry", None);
      if !ok {
        StepThenConclude(t, u, trace[|u|], trace, c, id, Tally(0, 0, 0, -2), Aborted);
        return Aborted;
      }
      AdvanceByOne(t, u, c, id, Tally(0, 0, 0, -2), trace[|u|]);
      ghost var v := trace;
      ok := AppendAction(c, WasAdopted, "registry", None);
      if !ok {
        StepThenConclude(t, v, trace[|v|], trace, c, id, Tally(0, 0, 0, -1), Aborted);
        return Aborted;
      }
      AdvanceByOne(t, v, c, id, Tally(0, 0, 0, -1), trace[|v|]);
      ghost var w := trace;
      r := Finish(c, "adopted", WasAdopted, o.digest, []);
      Conclude(t, w, trace, c, id, NOTHING, r);
    }

    /** Registered but not observed: reconcile with the provider. */
    method RecoverRegistryOnly(c: Context, record: InstanceRecord) returns (r: Recovery)
      requires c.authorization.approved
      modifies this
      ensures forall id :: Progress(old(trace), trace, c, id, r)
    {
      ghost var t := trace;
      var matches := RegistryMatches(record);
      ghost var u := trace;
      if matches.None? {
        r := Aborted;
      } else if !matches.value {
        r := Human(c, "registry-drift", "registry");
      } else {
        r := ReconcileAndReport(c, record, t);
        return;
      }
      forall id ensures Progress(t, trace, c, id, r) {
        AdvanceStart(t, c, id);
        AdvanceByReads(t, t, u, c, id, NOTHING);
        Conclude(t, u, trace, c, id, NOTHING, r);
      }
    }

    /** The registry has just answered with this very record. */
    method ReconcileAndReport(c: Context, record: InstanceRecord, ghost t: seq<Effect>) returns (r: Recovery)
      requires c.authorization.approved && OnlyReads(t, trace)
      requires |trace| > |t| && trace[|trace| - 1] == Got(record.pointer, FoundRecord(record))
      modifies this
      ensures forall id :: Progress(t, trace, c, id, r)
    {
      ghost var u := trace;
      var reconciled := Reconciling(OperationIdOf(record));
      ghost var v, e := trace, Reconcile(OperationIdOf(record), reconciled);
      var ok := false;
      if reconciled { ok := AppendAction(c, WasReconciled, "registry", None); }
      ghost var w := trace;
      r := Aborted;
      if ok { r := Finish(c, "registry-only", WasReconciled, "registry", []); }
      forall id ensures Progress(t, trace, c, id, r) {
        AdvanceStart(t, c, id);
        AdvanceByReads(t, t, u, c, id, NOTHING);
        if reconciled {
          ReconciliationProgress(t, u, c, id, e, w[|v|], trace, r);
        } else {
          StepThenConclude(t, u, e, trace, c, id, NOTHING, r);
        }
      }
    }

    /** Registered and observed: quarantine, and delete when asked to and still confirmed. */
    method RecoverOwned(c: Context, record: InstanceRecord, o: Observation) returns (r: Recovery)
      requires c.authorization.approved
      modifies this
      ensures Progress(old(trace), trace, c, o.ref.identifier, r)
    {
      ghost var t, id := trace, o.ref.identifier;
      AdvanceStart(t, c, id);
      if !o.ownershipValid {
        r := Human(c, "invalid-ownership", o.digest);
        Conclude(t, t, trace, c, id, NOTHING, r);
        return;
      }
      if !LineageMatches(record, o) {
        r := Human(c, "lineage-mismatch", o.digest);
        Conclude(t, t, trace, c, id, NOTHING, r);
        return;
      }
      r := RevalidateOwned(c, record, o);
    }

    /** Ownership and lineage hold: revalidate, then quarantine. */
    method RevalidateOwned(c: Context, record: InstanceRecord, o: Observation) returns (r: Recovery)
      requires c.authorization.approved && record.receipt.Some?
      modifies this
      ensures Progress(old(trace), trace, c, o.ref.identifier, r)
    {
      ghost var t, id := trace, o.ref.identifier;
      AdvanceStart(t, c, id);
      var check := Revalidate(c, Some(record), o);
      AdvanceByReads(t, t, trace, c, id, NOTHING);
      ghost var u := trace;
      if check.Raised? {
        Conclude(t, u, trace, c, id, NOTHING, Aborted);
        return Aborted;
      }
      if check.FailedCheck? {
        r := Human(c, check.code, check.digest);
        Conclude(t, u, trace, c, id, NOTHING, r);
        return;
      }
      r := QuarantineOwned(c, record, o, t);
    }

    /** After a passed revalidation: quarantine, then stop, wait, or revalidate again and delete. */
    method QuarantineOwned(c: Context, record: InstanceRecord, o: Observation, ghost t: seq<Effect>)
      returns (r: Recovery)
      requires c.authorization.approved && record.receipt.Some?
      requires Advance(t, trace, c, o.ref.identifier, NOTHING)
      requires |trace| > |t| && trace[|trace| - 1].Observed?
        && ExpiredEvidence(c, trace[|trace| - 1].observations, o.ref.identifier)
      modifies this
      ensures Progress(t, trace, c, o.ref.identifier, r)
    {
      ghost var id := o.ref.identifier;
      var quarantined; ghost var y;
      quarantined, y := QuarantineAndJournal(c, o.ref, o.digest, History(
        record.pointer, o.scope, o.ref, record.receipt.value.operation, o.digest, o.class_, c.now, o.lastActivity), t);
      ghost var v := trace;
      if quarantined.None? {
        Conclude(t, v, trace, c, id, y, Aborted);
        return Aborted;
      }
      if !c.delete {
        r := Finish(c, "quarantined", WasQuarantined, "registry", []);
        Conclude(t, v, trace, c, id, Tally(0, 0, 1, 0), r);
        return;
      }
      if c.wait > 0 {
        r := Finish(c, "quarantine-wait", WasQuarantined, "registry", ["wait"]);
        Conclude(t, v, trace, c, id, Tally(0, 0, 1, 0), r);
        return;
      }
      r := DeleteOwned(c, record, o, quarantined.value, t);
    }

    /** The journaled quarantine of an owned resource, looked at again right before the deletion. */
    method DeleteOwned(c: Context, record: InstanceRecord, o: Observation, h: History, ghost t: seq<Effect>)
      returns (r: Recovery)
      requires c.authorization.approved && c.delete && c.wait <= 0
      requires h.pointer == record.pointer && h.digest == o.digest && h.resource.identifier == o.ref.identifier
      requires Advance(t, trace, c, o.ref.identifier, Tally(0, 0, 1, 0)) && |trace| >= |t| + 2
      requires trace[|trace| - 2].Quarantine? && trace[|trace| - 2].result == Some(h.resource)
      requires trace[|trace| - 1].Journal? && trace[|trace| - 1].event.outcome == WasQuarantined
      requires trace[|trace| - 1].event.history == Some(h)
      modifies this
      ensures Progress(t, trace, c, o.ref.identifier, r)
    {
      ghost var v, id := trace, o.ref.identifier;
      var check := Revalidate(c, Some(record), o);
      AdvanceByReads(t, v, trace, c, id, Tally(0, 0, 1, 0));
      ghost var w := trace;
      if check.Raised? {
        Conclude(t, w, trace, c, id, Tally(0, 0, 1, 0), Aborted);
        return Aborted;
      }
      if check.FailedCheck? {
        if check.code == "evidence-drift" {
          r := Finish(c, "evidence-changed", Cancelled, check.digest, []);
        } else {
          r := Human(c, check.code, check.digest);
        }
        Conclude(t, w, trace, c, id, Tally(0, 0, 1, 0), r);
        return;
      }
      r := DeleteAndCleanUp(c, h.resource, o.digest, h, t);
    }

    method Recover(
      c: Context, record: Option<InstanceRecord>, observation: Option<Observation>, history: Option<History>,
      ghost id: string)
      returns (r: Recovery)
      requires observation.Some? ==> observation.value.ref.identifier == id
      requires history.Some? ==> history.value.resource.identifier == id
      requires history.Some? ==> JournaledBefore(trace, |trace|, history.value)
      modifies this
      ensures Progress(old(trace), trace, c, id, r)
      ensures observation.None? && history.None? ==> forall x :: Progress(old(trace), trace, c, x, r)
      ensures !c.authorization.approved ==> Ends(old(trace), trace, r) && |trace| == |old(trace)| + 1
    {
      ghost var t := trace;
      AdvanceStart(t, c, id);
      if !c.authorization.approved {
        r := Human(c, "unauthorized", "registry");
        ConcludeAnywhere(t, trace, c, r);
        return;
      }
      if history.Some? && record.None? {
        r := RecoverZombie(c, history.value, observation);
        return;
      }
      if observation.Some? {
        var o := observation.value;
        if o.scope != c.scope {
          r := Human(c, "scope-mismatch", "registry");
          ConcludeAnywhere(t, trace, c, r);
          return;
        }
        if !Eligible(o, c.policy, c.now) {
          r := Human(c, "ineligible", o.digest);
          ConcludeAnywhere(t, trace, c, r);
          return;
        }
      }
      if record.None? && observation.None? {
        r := Human(c, "invalid-ownership", "registry");
        ConcludeAnywhere(t, trace, c, r);
      } else if record.None? {
        r := RecoverOrphan(c, observation.value);
      } else if observation.None? {
        r := RecoverRegistryOnly(c, record.value);
      } else {
        r := RecoverOwned(c, record.value, observation.value);
      }
    }

    /** The record a journaled quarantine speaks about, or a contradiction with the registry. */
    method RecordFromHistory(h: History, current: Option<InstanceRecord>)
      returns (contradiction: bool, record: Option<InstanceRecord>)
      modifies this
      ensures OnlyReads(old(trace), trace)
      ensures !contradiction && record.Some? ==> RecordMatchesHistory(record.value, h)
      ensures !contradiction && current.Some? ==> record == current
    {
      record := current;
      contradiction := current.Some? && !RecordMatchesHistory(current.value, h);
      var answer := RegistryGet(h.pointer);
      match answer
      case NotFound =>
      case GetRaised => contradiction := true;
      case FoundRecord(found) =>
        if !RecordMatchesHistory(found, h) { contradiction := true; }
        if current.None? { record := Some(found); }
    }

    // -- a run ----------------------------------------------------------------------

    /** One key of a run: duplicates and contradictions go to a human, everything else is recovered. */
    method Process(
      c: Context, key: Key, records: seq<InstanceRecord>, observations: seq<Observation>, histories: seq<History>)
      returns (r: Recovery)
      requires key.kind == "database" ==> histories == HistoriesOf(trace, key.identifier)
      modifies this
      ensures Progress(old(trace), trace, c, key.identifier, r)
      ensures key.kind != "database" ==> forall x :: Progress(old(trace), trace, c, x, r)
      ensures key.kind == "database" && |histories| > 1 ==>
        AttemptsOf(trace, key.identifier) == AttemptsOf(old(trace), key.identifier)
    {
      ghost var t := trace;
      var recordsHere := RecordsOf(records, key.kind, key.identifier);
      var observationsHere := if key.kind == "database" then Observing(observations, key.identifier) else [];
      var historiesHere := if key.kind == "database" then histories else [];
      if |recordsHere| > 1 || |observationsHere| > 1 {
        r := ReferDuplicate(c, "duplicate-evidence", key.identifier);
        return;
      }
      var record := if recordsHere == [] then None else Some(recordsHere[0]);
      var observation := if observationsHere == [] then None else Some(observationsHere[0]);
      if |historiesHere| > 1 {
        r := ReferDuplicate(c, "duplicate-history", key.identifier);
        return;
      }
      if historiesHere == [] {
        r := Recover(c, record, observation, None, key.identifier);
        return;
      }
      HistoryIsJournaled(t, key.identifier, historiesHere[0]);
      r := ProcessHistory(c, record, observation, historiesHere[0], key.identifier);
    }

    /** Ambiguous evidence is left to a human. */
    method ReferDuplicate(c: Context, code: string, ghost id: string) returns (r: Recovery)
      modifies this
      ensures forall x :: Progress(old(trace), trace, c, x, r)
      ensures AttemptsOf(trace, id) == AttemptsOf(old(trace), id)
    {
      ghost var t := trace;
      r := Human(c, code, "registry");
      ConcludeAnywhere(t, trace, c, r);
      TalliesAfter(t, trace[|t|], id);
      assert trace == t + [trace[|t|]];
    }

    /** A key with one journaled quarantine. */
    method ProcessHistory(
      c: Context, record: Option<InstanceRecord>, observation: Option<Observation>, h: History, ghost id: string)
      returns (r: Recovery)
      requires observation.Some? ==> observation.value.ref.identifier == id
      requires h.resource.identifier == id && JournaledBefore(trace, |trace|, h)
      modifies this
      ensures Progress(old(trace), trace, c, id, r)
    {
      ghost var t := trace;
      var contradiction, known := RecordFromHistory(h, record);
      ghost var u := trace;
      if contradiction {
        r := Human(c, "history-mismatch", "registry");
        AdvanceStart(t, c, id);
        AdvanceByReads(t, t, u, c, id, NOTHING);
        Conclude(t, u, trace, c, id, NOTHING, r);
        return;
      }
      JournaledInExtension(t, u, h);
      r := Recover(c, known, observation, Some(h), id);
      ReadsThenProgress(t, u, trace, c, id, r);
    }

    /** Lists and observes, reads the journal, and journals the run. */
    method Begin(c: Context)
      returns (
        ok: bool, records: seq<InstanceRecord>, observations: seq<Observation>, start: seq<Effect>, keys: set<Key>)
      requires Recorded(trace)
      modifies this
      ensures old(trace) <= trace && Recorded(trace) && AllJustified(trace, |old(trace)|, c)
      ensures ok ==>
        && Begun(old(trace), trace, keys) && |start| == |old(trace)| + 2
        && Underway(old(trace), start, trace, c, keys, keys, 0)
    {
      ok, records, observations, start, keys := false, [], [], trace, {};
      ghost var t0 := trace;
      if c.wait < 0 { return; }
      var listed := RegistryList();
      ReadsKeepRecorded(t0, trace, c, |t0|);
      if listed.None? { return; }
      var observed := Observe();
      ReadsKeepRecorded(t0, trace, c, |t0|);
      if observed.None? { return; }
      ok, records, observations, start := true, listed.value, observed.value, trace;
      keys := KeysOf(records, observations, start);
      var residuals := if keys == {} then [Residual("empty-run", "empty-run")] else [];
      var stored := Append(Event(c.policy, c.authorization, Alerted, "registry", residuals, None, "run"));
      ghost var e := trace[|start|];
      RunEventKeepsRecorded(t0, start, c, e);
      if !stored {
        ok := false;
        return;
      }
      RunEventIsUnderway(t0, start, c, keys, e);
    }

    /** Lists, observes, journals the run, then recovers every key once. */
    method Run(c: Context) returns (results: Option<seq<RecoveryResult>>, ghost keys: set<Key>)
      requires Recorded(trace)
      modifies this
      ensures old(trace) <= trace && AllJustified(trace, |old(trace)|, c)
      ensures Recorded(trace)
      ensures results.Some? ==> Begun(old(trace), trace, keys) && |results.value| == |keys|
      ensures results.Some? ==>
        JournalSize(trace) == JournalSize(old(trace)) + 1 + |keys| + (Actions(trace) - Actions(old(trace)))
    {
      ghost var t0 := trace;
      var ok, records, observations, start, todo := Begin(c);
      keys := todo;
      if !ok { return None, keys; }
      var answers: seq<RecoveryResult> := [];
      while todo != {}
        invariant Underway(t0, start, trace, c, keys, todo, |answers|)
        invariant Begun(t0, trace, keys)
        decreases todo
      {
        var key :| key in todo;
        ghost var before := trace;
        assert key.kind == "database" ==> key == Key("database", key.identifier);
        var r := Process(c, key, records, observations, HistoriesOf(start, key.identifier));
        KeyDone(t0, start, before, trace, c, keys, todo, key, |answers|, r);
        if r.Aborted? { return None, keys; }
        answers := answers + [r.result];
        todo := todo - {key};
      }
      return Some(answers), keys;
    }

    /**
     Any number of runs, with any arguments, one after the other.  `starts` says
     where each began; what a run does is justified by its own arguments and by
     its own part of the trace.
     */
    method RunMany(contexts: seq<Context>) returns (completed: seq<bool>, ghost starts: seq<nat>)
      requires Recorded(trace)
      modifies this
      ensures old(trace) <= trace && Recorded(trace)
      ensures |completed| == |starts| == |contexts|
      ensures starts != [] ==> starts[0] == |old(trace)|
      ensures RunsJustified(trace, contexts, starts)
      ensures forall id :: AttemptsOf(trace, id) <= 2 && (DeletesOf(trace, id) > 1 ==> LosesDeletion(trace, id))
      ensures RepeatedOnlyUnrecorded(trace)
    {
      completed, starts := [], [];
      while |completed| < |contexts|
        invariant |completed| == |starts| <= |contexts| && old(trace) <= trace && Recorded(trace)
        invariant if starts == [] then trace == old(trace) else starts[0] == |old(trace)|
        invariant RunsJustified(trace, contexts, starts)
      {
        ghost var before := trace;
        var results, _ := Run(contexts[|completed|]);
        RunAppended(before, trace, contexts, starts);
        completed, starts := completed + [results.Some?], starts + [|before|];
      }
      forall id ensures AttemptsOf(trace, id) <= 2 && (DeletesOf(trace, id) > 1 ==> LosesDeletion(trace, id)) {
        assert RecordedFor(trace, id);
        if DeletesOf(trace, id) > 1 { TwiceDeletedWasLost(trace, id); }
      }
    }
  }

  /** What a run works through: records by their kind, observations and histories as databases. */
  datatype Key = Key(kind: string, identifier: string)

  datatype Check = Passed | FailedCheck(code: string, digest: string) | Raised
}
