// Card-status batches: the drafting statements of internal/repository/shard/reader.go and the leased
// execution of internal/repository/shard/executor_store.go, each as one transaction body.
module BatchTransactions {
  import opened Wrappers
  import opened RowOrder
  import opened Lifecycle
  import opened Tables
  import opened CardTransactions
  import opened DraftRequest

  function BatchOperationAction(target: Status): Action {
    match target
    case Active => Activate
    case Suspended => Suspend
    case _ => Close
  }

  // ----- drafting -----

  // insertCardStatusBatchItems, one card after another.
  function InsertItems(db: Db, batch: Id, action: Action, cards: seq<Id>, operations: seq<Id>, itemIds: seq<Id>): Tx
    requires |cards| == |operations| == |itemIds|
  {
    if cards == [] then Commit(db, Done)
    else
      var n := |cards| - 1;
      var before := InsertItems(db, batch, action, cards[..n], operations[..n], itemIds[..n]);
      if before.Rollback? then before
      else InsertItem(before.db, batch, action, cards[n], operations[n], itemIds[n])
  }

  function InsertItem(db: Db, batch: Id, action: Action, card: Id, operation: Id, item: Id): Tx {
    if operation in db.operations || item in db.items then Rollback(UniqueViolation)
    else Commit(db.(
      operations := db.operations[operation := Operation(card, action, OpQueued)],
      items := db.items[item := BatchItem(batch, card, operation, OutcomePending, None, None)]), Done)
  }

  function NewBatch(target: Status, reason: string, requestedBy: string, size: nat, retryOf: Option<Id>,
        now: Time): Batch {
    Batch(target, reason, requestedBy, Draft, size, 0, 0, retryOf, 0, now, None, 0, None)
  }

  function InsertBatch(db: Db, id: Id, row: Batch, cards: seq<Id>, operations: seq<Id>, itemIds: seq<Id>): Tx {
    if id in db.batches then Rollback(UniqueViolation)
    else if |operations| != |cards| || |itemIds| != |cards| then Rollback(MissingId)
    else InsertItems(db.(batches := db.batches[id := row]), id, BatchOperationAction(row.target), cards, operations,
        itemIds)
  }

  function CreateBatchTx(db: Db, id: Id, target: string, reason: string, requestedBy: string, raw: seq<RawId>,
                         operations: seq<Id>, itemIds: seq<Id>, now: Time): Tx {
    var request := Normalize(target, reason, raw);
    if request.None? then Rollback(InvalidRequest)
    else
      var r := request.value;
      if exists k :: 0 <= k < |r.cards| && r.cards[k] !in db.cards then Rollback(InvalidCard)
      else InsertBatch(db, id, NewBatch(r.target, r.reason, requestedBy, |r.cards|, None, now), r.cards, operations,
          itemIds)
  }

  function ExecuteBatchTx(db: Db, id: Id, now: Time): Tx {
    if id !in db.batches then Rollback(NotFound)
    else if db.batches[id].status != Draft then Commit(db, Done)
    else Commit(db.(batches := db.batches[id := db.batches[id].(status := Queued, nextAttemptAt := now)]), Done)
  }

  function CancelBatchTx(db: Db, id: Id): Tx {
    if id !in db.batches then Rollback(NotFound)
    else if db.batches[id].status != Draft && db.batches[id].status != Queued then Rollback(NotCancellable)
    else Commit(db.(batches := db.batches[id := db.batches[id].(status := Cancelled)]), Done)
  }

  // SELECT card_id ... ORDER BY card_id
  function CardKeys(db: Db, batch: Id): map<Id, int> {
    map i | i in db.items && db.items[i].batch == batch :: db.items[i].card as int
  }

  function CardsOf(items: map<Id, BatchItem>, ids: seq<Id>): (r: seq<Id>)
    requires forall x :: x in ids ==> x in items
    ensures |r| == |ids| && forall k :: 0 <= k < |r| ==> ids[k] in items && r[k] == items[ids[k]].card
  {
    assert forall k :: 0 <= k < |ids| ==> ids[k] in ids;
    seq(|ids|, k requires 0 <= k < |ids| => items[ids[k]].card)
  }

  function MemberCards(db: Db, batch: Id): seq<Id> {
    CardsOf(db.items, Ordered(CardKeys(db, batch)))
  }

  function RetryBatchTx(db: Db, source: Id, id: Id, requestedBy: string, operations: seq<Id>, itemIds: seq<Id>,
        now: Time): Tx {
    if source !in db.batches then Rollback(NotFound)
    else
      var s := db.batches[source];
      if s.status != Failed && s.status != Cancelled then Rollback(NotRetryable)
      else
        var cards := MemberCards(db, source);
        if |cards| != s.itemCount || |operations| != s.itemCount then Rollback(MembershipMismatch)
        else InsertBatch(db, id, NewBatch(s.target, s.reason, requestedBy, s.itemCount, Some(source), now), cards,
            operations, itemIds)
  }

  // ----- leased execution -----

  predicate LeaseHeld(db: Db, token: BatchToken, now: Time) {
    token.batch in db.batches &&
    var row := db.batches[token.batch];
    row.status == Processing && row.lease.Some? && row.lease.value.owner == token.owner &&
    row.leaseVersion == token.leaseVersion && row.lease.value.until > now
  }

  function DueBatches(db: Db, skipped: set<Id>, now: Time): map<Id, int> {
    map b | b in db.batches && db.batches[b].status == Queued && db.batches[b].nextAttemptAt <= now && b !in skipped
      :: db.batches[b].nextAttemptAt as int
  }

  function Claimed(row: Batch, owner: Owner, until: Time): Batch {
    row.(status := Processing, lease := Some(Lease(owner, until)),
         leaseVersion := row.leaseVersion + 1, attemptCount := row.attemptCount + 1)
  }

  function TokenOf(batch: Id, row: Batch, owner: Owner): BatchToken {
    BatchToken(batch, owner, row.target, row.reason, row.requestedBy, row.itemCount, row.attemptCount, row.leaseVersion)
  }

  // `skipped` are the rows that SKIP LOCKED passes over.
  function ClaimBatchTx(db: Db, owner: Owner, duration: nat, skipped: set<Id>, now1: Time, now2: Time): Tx {
    var due := DueBatches(db, skipped, now1);
    if due.Keys == {} then Commit(db, NoWork)
    else
      var b := Least(due);
      var row := Claimed(db.batches[b], owner, now2 + duration);
      Commit(db.(batches := db.batches[b := row]), BatchWork(TokenOf(b, row, owner)))
  }

  predicate LeaseExpired(row: Batch, now: Time) {
    row.status == Processing && row.lease.Some? && row.lease.value.until <= now
  }

  function ExpiredLeases(db: Db, skipped: set<Id>, now: Time): set<Id> {
    set b | b in db.batches && LeaseExpired(db.batches[b], now) && b !in skipped
  }

  function Recovered(row: Batch, now: Time): Batch {
    row.(status := Queued, lease := None, leaseVersion := row.leaseVersion + 1, nextAttemptAt := now)
  }

  function RecoverBatchesTx(db: Db, skipped: set<Id>, now1: Time, now2: Time): Tx {
    var lost := ExpiredLeases(db, skipped, now1);
    Commit(db.(batches := map b | b in db.batches :: if b in lost then Recovered(db.batches[b],
        now2) else db.batches[b]),
           Count(|lost|))
  }

  datatype LockedRow = LockedRow(item: Id, card: Id, operation: Id, status: Status)

  // The join of a batch's items with their cards, ordered by card.
  function JoinKeys(db: Db, batch: Id): map<Id, int> {
    map i | i in db.items && db.items[i].batch == batch && db.items[i].card in db.cards :: db.items[i].card as int
  }

  function RowOf(db: Db, item: Id): LockedRow
    requires item in db.items && db.items[item].card in db.cards
  {
    var i := db.items[item];
    LockedRow(item, i.card, i.operation, db.cards[i.card].status)
  }

  function LockedRows(db: Db, batch: Id): (r: seq<LockedRow>)
    ensures |r| == |Ordered(JoinKeys(db, batch))|
    ensures forall k :: 0 <= k < |r| ==> r[k].item == Ordered(JoinKeys(db, batch))[k]
    ensures forall k :: 0 <= k < |r| ==> r[k].item in JoinKeys(db, batch) && r[k] == RowOf(db, r[k].item)
  {
    var ids := Ordered(JoinKeys(db, batch));
    assert forall k :: 0 <= k < |ids| ==> ids[k] in ids;
    seq(|ids|, k requires 0 <= k < |ids| => RowOf(db, ids[k]))
  }

  predicate AllLegal(rows: seq<LockedRow>, target: Status) {
    forall k :: 0 <= k < |rows| ==> CanTransition(rows[k].status, target).valid
  }

  // UPDATE ... SET outcome WHERE id AND outcome='pending'
  function ResolveItem(items: map<Id, BatchItem>, id: Id, outcome: Outcome,
        previous: Option<Status>): map<Id, BatchItem> {
    if id in items && items[id].outcome == OutcomePending
    then items[id := items[id].(outcome := outcome, previous := previous)]
    else items
  }

  // UPDATE bank.card_operations ... WHERE id AND status='queued'
  function FinishOperation(operations: map<Id, Operation>, id: Id): map<Id, Operation> {
    if id in operations && operations[id].status == OpQueued
    then operations[id := operations[id].(status := OpSucceeded)]
    else operations
  }

  // One turn of the item loop in ApplyBatch.
  function ApplyRow(db: Db, row: LockedRow, target: Status): Db {
    if CanTransition(row.status, target).ignored then
      var previous := if row.item in db.items then db.items[row.item].previous else None;
      db.(items := ResolveItem(db.items, row.item, OutcomeIgnored, previous),
          operations := FinishOperation(db.operations, row.operation))
    else
      var posted := Post(db, row.card, row.operation, row.status, target);
      posted.(items := ResolveItem(db.items, row.item, OutcomeApplied, Some(row.status)),
              operations := FinishOperation(db.operations, row.operation))
  }

  function ApplyRows(db: Db, rows: seq<LockedRow>, target: Status): Db {
    if rows == [] then db
    else ApplyRow(ApplyRows(db, rows[..|rows|-1], target), rows[|rows|-1], target)
  }

  function AppliedAmong(rows: seq<LockedRow>, target: Status): nat {
    if rows == [] then 0
    else AppliedAmong(rows[..|rows|-1], target) + (if CanTransition(rows[|rows|-1].status,
        target).ignored then 0 else 1)
  }

  function Completed(row: Batch, applied: nat, ignored: nat): Batch {
    row.(status := Succeeded, appliedCount := applied, ignoredCount := ignored, lease := None)
  }

  function ApplyLockedTx(db: Db, token: BatchToken, rows: seq<LockedRow>, now: Time): Tx {
    if !AllLegal(rows, token.target) then Rollback(InvalidTransition)
    else if !LeaseHeld(db, token, now) then Rollback(Stale)
    else
      var applied := AppliedAmong(rows, token.target);
      AppliedBound(rows, token.target);
      Commit(ApplyRows(db, rows, token.target).(batches := db.batches[token.batch :=
               Completed(db.batches[token.batch], applied, |rows| - applied)]), Done)
  }

  function ApplyBatchTx(db: Db, token: BatchToken, now1: Time, now2: Time): Tx {
    if !LeaseHeld(db, token, now1) then Rollback(Stale)
    else ApplyLockedTx(db, token, LockedRows(db, token.batch), now2)
  }

  lemma {:induction false} AppliedBound(rows: seq<LockedRow>, target: Status)
    ensures AppliedAmong(rows, target) <= |rows|
  {
    if rows != [] { AppliedBound(rows[..|rows|-1], target); }
  }

  function Requeued(row: Batch, code: Code, at: Time): Batch {
    row.(status := Queued, lease := None, nextAttemptAt := at, failureCode := Some(code))
  }

  function RequeueBatchTx(db: Db, token: BatchToken, code: Code, delay: nat, now: Time): Tx {
    if !LeaseHeld(db, token, now) then Rollback(Stale)
    else Commit(db.(batches := db.batches[token.batch :=
                      Requeued(db.batches[token.batch], SafeBatchCode(code), now + delay)]), Done)
  }

  predicate FailsHere(db: Db, item: BatchItem, batch: Id) {
    item.batch == batch && item.card in db.cards && item.outcome == OutcomePending
  }

  function FailedItem(db: Db, item: BatchItem, token: BatchToken, code: Code): BatchItem
    requires item.card in db.cards
  {
    if db.cards[item.card].status == token.target
    then item.(outcome := OutcomeIgnored, previous := None, failureCode := None)
    else item.(outcome := OutcomeNotApplied, previous := None, failureCode := Some(code))
  }

  function FailedItems(db: Db, token: BatchToken, code: Code): map<Id, BatchItem> {
    map i | i in db.items ::
      if FailsHere(db, db.items[i], token.batch) then FailedItem(db, db.items[i], token, code) else db.items[i]
  }

  predicate OperationOfBatch(db: Db, operation: Id, batch: Id) {
    exists i :: i in db.items && db.items[i].batch == batch && db.items[i].operation == operation
  }

  function FailedOperations(db: Db, batch: Id): map<Id, Operation> {
    map o | o in db.operations ::
      if db.operations[o].status == OpQueued && OperationOfBatch(db, o, batch)
      then db.operations[o].(status := OpFailed) else db.operations[o]
  }

  function WithOutcome(items: map<Id, BatchItem>, batch: Id, outcome: Outcome): set<Id> {
    set i | i in items && items[i].batch == batch && items[i].outcome == outcome
  }

  function FailedRow(row: Batch, code: Code, ignored: nat): Batch {
    row.(status := Failed, appliedCount := 0, ignoredCount := ignored, failureCode := Some(code), lease := None)
  }

  function FailBatchTx(db: Db, token: BatchToken, code: Code, now1: Time, now2: Time): Tx {
    if !LeaseHeld(db, token, now1) then Rollback(Stale)
    else if !LeaseHeld(db, token, now2) then Rollback(Stale)
    else
      var safe := SafeBatchCode(code);
      var items := FailedItems(db, token, safe);
      Commit(db.(
        items := items,
        operations := FailedOperations(db, token.batch),
        batches := db.batches[token.batch :=
          FailedRow(db.batches[token.batch], safe, |WithOutcome(items, token.batch, OutcomeIgnored)|)]), Done)
  }

  // retryBatch of internal/executor/service.go: requeue while attempts remain, otherwise fail.
  function RetryOrFailTx(db: Db, token: BatchToken, maxAttempts: nat, code: Code, delay: nat, now1: Time,
        now2: Time): Tx {
    if token.attemptCount >= maxAttempts then FailBatchTx(db, token, RetryExhausted, now1, now2)
    else RequeueBatchTx(db, token, code, delay, now1)
  }
}
