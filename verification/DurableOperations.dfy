/** Transition rules of durable operations, as the copy coordinator uses them. */
module DurableOperations {
  import opened Wrappers

  datatype LifecycleState =
    | Accepted | InProgress | ReconciliationRequired | TerminalPending
    | Succeeded | Failed | CleanupRequired | Closed

  datatype LifecycleError = Regression | OutcomeFlip | NoTerminalCommit | IncompleteCommit

  function Order(s: LifecycleState): nat {
    match s
    case Accepted => 0
    case InProgress => 1
    case ReconciliationRequired => 2
    case TerminalPending => 3
    case Succeeded => 4
    case Failed => 4
    case CleanupRequired => 5
    case Closed => 6
  }

  predicate IsTerminal(s: LifecycleState) { s == Succeeded || s == Failed }

  predicate IsPostCommit(s: LifecycleState) { IsTerminal(s) || s == CleanupRequired || s == Closed }

  function AdvanceLifecycle(current: LifecycleState, revision: nat, target: LifecycleState)
    : Result<(LifecycleState, nat), LifecycleError>
  {
    if Order(target) < Order(current) then Err(Regression)
    else if IsTerminal(current) && IsTerminal(target) && target != current then Err(OutcomeFlip)
    else if IsPostCommit(target) && !IsPostCommit(current) then Err(NoTerminalCommit)
    else Ok((target, revision + 1))
  }

  /** The outcome published by a terminal commit, or a rejection. */
  function BuildTerminalCommit<E>(outcome: LifecycleState, evidence: seq<E>)
    : Result<LifecycleState, LifecycleError>
  {
    if !IsTerminal(outcome) then Err(IncompleteCommit)
    else if evidence == [] then Err(IncompleteCommit)
    else Ok(outcome)
  }

  function AdvanceAll(current: LifecycleState, revision: nat, targets: seq<LifecycleState>)
    : Result<(LifecycleState, nat), LifecycleError>
    decreases |targets|
  {
    if targets == [] then Ok((current, revision))
    else match AdvanceLifecycle(current, revision, targets[0])
      case Err(e) => Err(e)
      case Ok((s, r)) => AdvanceAll(s, r, targets[1..])
  }

  /**
   Over any accepted sequence of advances the revision counts the steps, the
   state never regresses, a terminal state is never minted from a non-terminal
   one, and a published outcome is never flipped.
   */
  lemma {:induction false} AdvancesNeverMintOrFlip(
    current: LifecycleState, revision: nat, targets: seq<LifecycleState>)
    requires AdvanceAll(current, revision, targets).Ok?
    ensures var (s, r) := AdvanceAll(current, revision, targets).value;
      && r == revision + |targets|
      && Order(current) <= Order(s)
      && (IsPostCommit(s) ==> IsPostCommit(current))
      && (IsTerminal(current) && IsTerminal(s) ==> s == current)
    decreases |targets|
  {
    if targets != [] {
      var (s, r) := AdvanceLifecycle(current, revision, targets[0]).value;
      AdvancesNeverMintOrFlip(s, r, targets[1..]);
    }
  }
}
