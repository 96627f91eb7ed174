// What the evidence tables must say about every batch item and every expiry item.
module Evidence {
  import opened Wrappers
  import opened RowOrder
  import opened Lifecycle
  import opened Tables
  import opened BatchTransactions

  // The history rows one operation has written.
  function RowsFor(history: seq<HistoryRow>, operation: Id): seq<HistoryRow> {
    if history == [] then []
    else
      var n := |history| - 1;
      RowsFor(history[..n], operation) + (if history[n].operation == operation then [history[n]] else [])
  }

  lemma {:induction false} RowsForAppend(history: seq<HistoryRow>, row: HistoryRow, operation: Id)
    ensures RowsFor(history + [row], operation) ==
      RowsFor(history, operation) + (if row.operation == operation then [row] else [])
  {
    assert (history + [row])[..|history|] == history;
  }

  // Every history row belongs to an operation on the same card that succeeded.
  predicate HistoryOwned(operations: map<Id, Operation>, history: seq<HistoryRow>) {
    forall k :: 0 <= k < |history| ==>
      history[k].operation in operations && operations[history[k].operation].card == history[k].card &&
      operations[history[k].operation].status == OpSucceeded
  }

  lemma {:induction false} NoRowsYet(operations: map<Id, Operation>, history: seq<HistoryRow>, operation: Id)
    requires HistoryOwned(operations, history)
    requires operation !in operations || operations[operation].status != OpSucceeded
    ensures RowsFor(history, operation) == []
  {
    if history != [] {
      NoRowsYet(operations, history[..|history|-1], operation);
    }
  }

  // ----- batches -----

  predicate PendingEvidence(item: BatchItem, op: Operation, rows: seq<HistoryRow>) {
    item.outcome == OutcomePending && item.previous == None && item.failureCode == None &&
    op.status == OpQueued && rows == []
  }

  predicate AppliedEvidence(item: BatchItem, target: Status, op: Operation, rows: seq<HistoryRow>) {
    item.outcome == OutcomeApplied && item.failureCode == None && op.status == OpSucceeded &&
    item.previous.Some? && Legal(item.previous.value, target) &&
    rows == [HistoryRow(item.card, item.operation, item.previous.value, target)]
  }

  predicate IgnoredEvidence(item: BatchItem, op: Operation, rows: seq<HistoryRow>) {
    item.outcome == OutcomeIgnored && item.previous == None && item.failureCode == None &&
    op.status == OpSucceeded && rows == []
  }

  predicate FailedEvidence(item: BatchItem, op: Operation, rows: seq<HistoryRow>) {
    item.previous == None && op.status == OpFailed && rows == [] &&
    ((item.outcome == OutcomeIgnored && item.failureCode == None) ||
     (item.outcome == OutcomeNotApplied && item.failureCode.Some?))
  }

  predicate Agrees(item: BatchItem, status: BatchStatus, target: Status, op: Operation, rows: seq<HistoryRow>) {
    match status
    case Succeeded => AppliedEvidence(item, target, op, rows) || IgnoredEvidence(item, op, rows)
    case Failed => FailedEvidence(item, op, rows)
    case _ => PendingEvidence(item, op, rows)
  }

  predicate ItemOk(db: Db, id: Id)
    requires id in db.items
  {
    var item := db.items[id];
    item.batch in db.batches && item.card in db.cards && item.operation in db.operations &&
    db.operations[item.operation].card == item.card &&
    db.operations[item.operation].action == BatchOperationAction(db.batches[item.batch].target) &&
    Agrees(item, db.batches[item.batch].status, db.batches[item.batch].target,
           db.operations[item.operation], RowsFor(db.history, item.operation))
  }

  predicate EvidenceOk(db: Db) {
    forall i :: i in db.items ==> ItemOk(db, i)
  }

  // No operation serves two items, and no batch holds a card twice.
  predicate MembershipOk(items: map<Id, BatchItem>) {
    forall i, j :: i in items && j in items && i != j ==>
      items[i].operation != items[j].operation &&
      (items[i].batch == items[j].batch ==> items[i].card != items[j].card)
  }

  function ItemsOfBatch(items: map<Id, BatchItem>, batch: Id): set<Id> {
    set i | i in items && items[i].batch == batch
  }

  predicate BatchOk(id: Id, row: Batch, items: map<Id, BatchItem>) {
    row.target in {Active, Suspended, Closed} &&
    row.itemCount == |ItemsOfBatch(items, id)| &&
    (row.lease.Some? <==> row.status == Processing) &&
    match row.status
    case Succeeded =>
      row.appliedCount == |WithOutcome(items, id, OutcomeApplied)| &&
      row.ignoredCount == |WithOutcome(items, id, OutcomeIgnored)| &&
      row.appliedCount + row.ignoredCount == row.itemCount
    case Failed => row.appliedCount == 0 && row.ignoredCount == |WithOutcome(items, id, OutcomeIgnored)|
    case _ => row.appliedCount == 0 && row.ignoredCount == 0
  }

  predicate BatchesOk(batches: map<Id, Batch>, items: map<Id, BatchItem>) {
    forall b :: b in batches ==> BatchOk(b, batches[b], items)
  }

  // ----- expiry -----

  predicate ExpiryAgrees(item: ExpiryItem, op: Operation, rows: seq<HistoryRow>) {
    op.card == item.card && op.action == Expire &&
    match item.status
    case ExpExpired => op.status == OpSucceeded && |rows| == 1 &&
      rows[0].card == item.card && rows[0].next == Expired && Legal(rows[0].previous, Expired)
    case ExpSkipped => op.status == OpSucceeded && rows == []
    case _ => op.status == OpQueued && rows == []
  }

  predicate ExpiryItemOk(db: Db, id: Id)
    requires id in db.expiryItems
  {
    var item := db.expiryItems[id];
    item.card in db.cards && item.operation in db.operations && item.day in db.runs &&
    ExpiryAgrees(item, db.operations[item.operation], RowsFor(db.history, item.operation))
  }

  predicate ExpiryEvidenceOk(db: Db) {
    forall i :: i in db.expiryItems ==> ExpiryItemOk(db, i)
  }

  // No operation serves two expiry items, and no run holds a card twice.
  predicate ScheduleOk(expiryItems: map<Id, ExpiryItem>) {
    forall i, j :: i in expiryItems && j in expiryItems && i != j ==>
      expiryItems[i].operation != expiryItems[j].operation &&
      (expiryItems[i].day == expiryItems[j].day ==> expiryItems[i].card != expiryItems[j].card)
  }

  // Batch operations and expiry operations never coincide: their actions differ.
  lemma {:induction false} OperationsAreSeparate(db: Db, i: Id, e: Id)
    requires EvidenceOk(db) && ExpiryEvidenceOk(db) && i in db.items && e in db.expiryItems
    ensures db.items[i].operation != db.expiryItems[e].operation
  {
    assert ItemOk(db, i) && ExpiryItemOk(db, e);
  }
}
