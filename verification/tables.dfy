// The tables of one bank's shard, and how a transaction over them ends.
module Tables {
  import opened Wrappers
  import opened RowOrder
  import opened Lifecycle

  type Time = nat    // microseconds, the resolution of timestamptz
  type Day = nat     // UTC dates, counted in days
  type Owner = string

  const DAY_LENGTH: nat := 86_400_000_000

  datatype Card = Card(status: Status, version: nat, predecessor: Option<Id>, expiresAt: Option<Time>)

  datatype OperationStatus = OpQueued | OpSucceeded | OpFailed
  datatype Operation = Operation(card: Id, action: Action, status: OperationStatus)

  datatype HistoryRow = HistoryRow(card: Id, operation: Id, previous: Status, next: Status)

  datatype Lease = Lease(owner: Owner, until: Time)

  datatype Code = AuthorizationRevoked | RetryExhausted | TransitionRejected | ControlUnavailable
                | DependencyUnavailable | Unlisted(text: string)

  function SafeBatchCode(code: Code): Code {
    if code.Unlisted? then DependencyUnavailable else code
  }

  datatype BatchStatus = Draft | Queued | Processing | Succeeded | Failed | Cancelled

  predicate Terminal(s: BatchStatus) {
    s == Succeeded || s == Failed || s == Cancelled
  }

  datatype Batch = Batch(
    target: Status, reason: string, requestedBy: string, status: BatchStatus,
    itemCount: nat, appliedCount: nat, ignoredCount: nat, retryOf: Option<Id>,
    attemptCount: nat, nextAttemptAt: Time, lease: Option<Lease>, leaseVersion: nat,
    failureCode: Option<Code>)

  datatype Outcome = OutcomePending | OutcomeApplied | OutcomeIgnored | OutcomeNotApplied
  datatype BatchItem = BatchItem(
    batch: Id, card: Id, operation: Id, outcome: Outcome,
    previous: Option<Status>, failureCode: Option<Code>)

  // One run per bank and UTC date, so the date identifies the run.
  datatype ExpiryRun = ExpiryRun(
    completed: bool, itemCount: nat, expiredCount: nat, skippedCount: nat, manualCount: nat)

  datatype ExpiryStatus = ExpPending | ExpProcessing | ExpExpired | ExpSkipped | ExpManual
  datatype ExpiryItem = ExpiryItem(
    day: Day, card: Id, operation: Id, status: ExpiryStatus,
    attemptCount: nat, automaticRetries: nat, manualRetries: nat,
    nextAttemptAt: Time, lease: Option<Lease>, leaseVersion: nat)

  datatype Db = Db(
    cards: map<Id, Card>,
    operations: map<Id, Operation>,
    history: seq<HistoryRow>,
    batches: map<Id, Batch>,
    items: map<Id, BatchItem>,
    runs: map<Day, ExpiryRun>,
    expiryItems: map<Id, ExpiryItem>)

  const EMPTY_DB: Db := Db(map[], map[], [], map[], map[], map[], map[])

  // What a worker holds after a claim: executor.Batch and executor.ExpiryItem with the identity
  // that claimed. Nothing stops a worker from presenting a token late, or more than once.
  datatype BatchToken = BatchToken(
    batch: Id, owner: Owner, target: Status, reason: string, requestedBy: string,
    itemCount: nat, attemptCount: nat, leaseVersion: nat)
  datatype ExpiryToken = ExpiryToken(
    item: Id, day: Day, card: Id, operation: Id, owner: Owner,
    leaseVersion: nat, automaticRetries: nat)

  datatype Error = Stale | InvalidTransition | UnsupportedAction | NotFound | UniqueViolation | MissingId
                 | NotCancellable | NotRetryable | ReplacementPending | InvalidReference | InvalidRequest
                 | InvalidCard | MembershipMismatch | ConnectionLost

  datatype Reply = Done | NoWork | Refused(error: Error) | Count(count: nat)
                 | BatchWork(batchToken: BatchToken) | ExpiryWork(expiryToken: ExpiryToken)

  // The body of a transaction either asks for a rollback or is ready to commit.
  datatype Tx = Rollback(error: Error) | Commit(db: Db, reply: Reply)

  // The connection may die before the commit, or after it but before the caller hears of it.
  datatype Fate = Acknowledged | AcknowledgementLost | Aborted

  function Settle(db: Db, tx: Tx, fate: Fate): (Db, Reply) {
    match fate
    case Aborted => (db, Refused(ConnectionLost))
    case Acknowledged => if tx.Commit? then (tx.db, tx.reply) else (db, Refused(tx.error))
    case AcknowledgementLost => if tx.Commit? then (tx.db, Refused(ConnectionLost)) else (db, Refused(tx.error))
  }
}
