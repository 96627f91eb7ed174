// What no transaction undoes: the two-state half of the protocol.
module ForwardSteps {
  import opened Wrappers
  import opened RowOrder
  import opened Lifecycle
  import opened Tables
  import opened CardTransactions
  import opened BatchTransactions
  import opened ExpiryTransactions
  import opened CardLedger
  import opened Evidence
  import opened BatchRefinement
  import opened ShardInvariant
  import opened BatchOutcomes
  import opened ExpirySteps

  // A batch row keeps its request; a terminal row is frozen; lease versions only grow, and within
  // one version a batch never enters processing, renews its lease or changes its attempt count.
  predicate RowProgress(row: Batch, row': Batch) {
    row'.target == row.target && row'.reason == row.reason && row'.requestedBy == row.requestedBy &&
    row'.itemCount == row.itemCount && row'.retryOf == row.retryOf &&
    row.leaseVersion <= row'.leaseVersion && row.attemptCount <= row'.attemptCount &&
    (Terminal(row.status) ==> row' == row) &&
    (row'.status == Draft ==> row.status == Draft) &&
    (row'.leaseVersion == row.leaseVersion && row'.status == Processing ==>
      row.status == Processing && row'.lease == row.lease && row'.attemptCount == row.attemptCount)
  }

  predicate BatchesProgress(batches: map<Id, Batch>, batches': map<Id, Batch>) {
    forall b :: b in batches ==> b in batches' && RowProgress(batches[b], batches'[b])
  }

  // Items keep their membership, resolved items are frozen, and no batch gains items.
  predicate ItemsProgress(db: Db, db': Db) {
    (forall i :: i in db.items ==>
      i in db'.items && db'.items[i].batch == db.items[i].batch && db'.items[i].card == db.items[i].card &&
      db'.items[i].operation == db.items[i].operation &&
      (db.items[i].outcome != OutcomePending ==> db'.items[i] == db.items[i])) &&
    (forall i :: i in db'.items && i !in db.items ==> db'.items[i].batch !in db.batches)
  }

  predicate ExpiryRowProgress(row: ExpiryItem, row': ExpiryItem) {
    row'.day == row.day && row'.card == row.card && row'.operation == row.operation &&
    row.leaseVersion <= row'.leaseVersion && row.attemptCount <= row'.attemptCount &&
    row.automaticRetries <= row'.automaticRetries && row.manualRetries <= row'.manualRetries &&
    (!Queueing(row.status) ==> row' == row) &&
    (row'.leaseVersion == row.leaseVersion && row'.status == ExpProcessing ==>
      row.status == ExpProcessing && row'.lease == row.lease && row'.automaticRetries == row.automaticRetries)
  }

  predicate ExpiryProgress(items: map<Id, ExpiryItem>, items': map<Id, ExpiryItem>) {
    forall i :: i in items ==> i in items' && ExpiryRowProgress(items[i], items'[i])
  }

  predicate Progress(db: Db, db': Db) {
    db.history <= db'.history && BatchesProgress(db.batches, db'.batches) && ItemsProgress(db, db') &&
    ExpiryProgress(db.expiryItems, db'.expiryItems)
  }

  lemma {:induction false} StandingStill(db: Db)
    ensures Progress(db, db)
  {
  }

  lemma {:induction false} ProgressIsTransitive(a: Db, b: Db, c: Db)
    requires Progress(a, b) && Progress(b, c)
    ensures Progress(a, c)
  {
    forall i | i in c.items && i !in a.items ensures c.items[i].batch !in a.batches {
      if i in b.items { assert c.items[i].batch == b.items[i].batch; }
    }
  }

  // ----- cards -----

  lemma {:induction false} CardCallsProgress(db: Db, db': Db)
    requires db' == db.(cards := db'.cards, operations := db'.operations, history := db'.history)
    requires db.history <= db'.history
    ensures Progress(db, db')
  {
  }

  lemma {:induction false} CommandProgress(db: Db, card: Id, action: Action, operation: Id, predecessorOperation: Id)
    ensures var t := CommandTx(db, card, action, operation, predecessorOperation); t.Commit? ==> Progress(db, t.db)
  {
    var t := CommandTx(db, card, action, operation, predecessorOperation);
    if t.Commit? { CardCallsProgress(db, t.db); }
  }

  lemma {:induction false} InsertCardProgress(db: Db, card: Id, operation: Id, action: Action, predecessor: Option<Id>)
    ensures var t := InsertCard(db, card, operation, action, predecessor); t.Commit? ==> Progress(db, t.db)
  {
    var t := InsertCard(db, card, operation, action, predecessor);
    if t.Commit? { CardCallsProgress(db, t.db); }
  }

  lemma {:induction false} SetExpiryProgress(db: Db, card: Id, expiresAt: Option<Time>)
    ensures var t := SetExpiryTx(db, card, expiresAt); t.Commit? ==> Progress(db, t.db)
  {
    var t := SetExpiryTx(db, card, expiresAt);
    if t.Commit? { CardCallsProgress(db, t.db); }
  }

  // ----- batches -----

  lemma {:induction false} InsertItemsProgress(db: Db, batch: Id, action: Action, cards: seq<Id>, operations: seq<Id>,
        itemIds: seq<Id>)
    requires |cards| == |operations| == |itemIds|
    ensures var t := InsertItems(db, batch, action, cards, operations, itemIds);
      t.Commit? ==>
        t.db == db.(operations := t.db.operations, items := t.db.items) &&
        (forall i :: i in db.items ==> i in t.db.items && t.db.items[i] == db.items[i]) &&
        (forall i :: i in t.db.items && i !in db.items ==> t.db.items[i].batch == batch)
  {
    if cards != [] {
      var n := |cards| - 1;
      InsertItemsProgress(db, batch, action, cards[..n], operations[..n], itemIds[..n]);
    }
  }

  lemma {:induction false} InsertBatchProgress(db: Db, id: Id, row: Batch, cards: seq<Id>, operations: seq<Id>,
        itemIds: seq<Id>)
    ensures var t := InsertBatch(db, id, row, cards, operations, itemIds); t.Commit? ==> Progress(db, t.db)
  {
    var t := InsertBatch(db, id, row, cards, operations, itemIds);
    if t.Commit? {
      InsertItemsProgress(db.(batches := db.batches[id := row]), id, BatchOperationAction(row.target), cards,
          operations, itemIds);
    }
  }

  lemma {:induction false} BatchRowProgress(db: Db, batches': map<Id, Batch>)
    requires BatchesProgress(db.batches, batches')
    ensures Progress(db, db.(batches := batches'))
  {
  }

  lemma {:induction false} ExecuteProgress(db: Db, id: Id, now: Time)
    ensures var t := ExecuteBatchTx(db, id, now); t.Commit? ==> Progress(db, t.db)
  {
    var t := ExecuteBatchTx(db, id, now);
    if t.Commit? { BatchRowProgress(db, t.db.batches); }
  }

  lemma {:induction false} CancelProgress(db: Db, id: Id)
    ensures var t := CancelBatchTx(db, id); t.Commit? ==> Progress(db, t.db)
  {
    var t := CancelBatchTx(db, id);
    if t.Commit? { BatchRowProgress(db, t.db.batches); }
  }

  lemma {:induction false} ClaimRowProgress(row: Batch, owner: Owner, until: Time)
    requires row.status == Queued
    ensures RowProgress(row, Claimed(row, owner, until))
  {
  }

  lemma {:induction false} StandingRows(batches: map<Id, Batch>)
    ensures forall b :: b in batches ==> RowProgress(batches[b], batches[b])
  {
  }

  lemma {:induction false} ClaimProgress(db: Db, owner: Owner, duration: nat, skipped: set<Id>, now1: Time, now2: Time)
    ensures Progress(db, ClaimBatchTx(db, owner, duration, skipped, now1, now2).db)
  {
    var due := DueBatches(db, skipped, now1);
    if due.Keys == {} {
      StandingStill(db);
    } else {
      var b := Least(due);
      ClaimRowProgress(db.batches[b], owner, now2 + duration);
      hide Claimed, RowProgress, Progress;
      StandingRows(db.batches);
      BatchRowProgress(db, db.batches[b := Claimed(db.batches[b], owner, now2 + duration)]);
    }
  }

  lemma {:induction false} RecoverProgress(db: Db, skipped: set<Id>, now1: Time, now2: Time)
    ensures Progress(db, RecoverBatchesTx(db, skipped, now1, now2).db)
  {
    BatchRowProgress(db, RecoverBatchesTx(db, skipped, now1, now2).db.batches);
  }

  lemma {:induction false} RequeueProgress(db: Db, token: BatchToken, code: Code, delay: nat, now: Time)
    ensures var t := RequeueBatchTx(db, token, code, delay, now); t.Commit? ==> Progress(db, t.db)
  {
    var t := RequeueBatchTx(db, token, code, delay, now);
    if t.Commit? { BatchRowProgress(db, t.db.batches); }
  }

  lemma {:induction false} PendingWhileProcessing(db: Db, batch: Id, i: Id)
    requires EvidenceOk(db) && batch in db.batches && db.batches[batch].status == Processing
    requires i in db.items && db.items[i].batch == batch
    ensures db.items[i].outcome == OutcomePending
  {
    assert ItemOk(db, i);
  }

  lemma {:induction false} SettlingProgress(db: Db, db': Db, batch: Id, target: Status)
    requires db'.items == SettleItems(db.items, ItemsOfBatch(db.items, batch), db.cards, target)
    requires forall i :: i in db.items && db.items[i].batch == batch ==> db.items[i].outcome == OutcomePending
    ensures ItemsProgress(db, db')
  {
  }

  lemma {:induction false} FinishProgress(db: Db, batch: Id, target: Status)
    requires EvidenceOk(db) && batch in db.batches && db.batches[batch].status == Processing
    ensures Progress(db, Finished(db, batch, target))
  {
    forall i | i in db.items && db.items[i].batch == batch ensures db.items[i].outcome == OutcomePending {
      PendingWhileProcessing(db, batch, i);
    }
    SettlingProgress(db, Finished(db, batch, target), batch, target);
  }

  lemma {:induction false} ApplyProgress(db: Db, token: BatchToken, now1: Time, now2: Time)
    requires EvidenceOk(db) && MembershipOk(db.items)
    ensures var t := ApplyBatchTx(db, token, now1, now2); t.Commit? ==> Progress(db, t.db)
  {
    ApplyBatchIsAtomic(db, token, now1, now2);
    if ApplyBatchTx(db, token, now1, now2).Commit? { FinishProgress(db, token.batch, token.target); }
  }

  lemma {:induction false} FailProgress(db: Db, token: BatchToken, code: Code, now1: Time, now2: Time)
    ensures var t := FailBatchTx(db, token, code, now1, now2); t.Commit? ==> Progress(db, t.db)
  {
  }

  // ----- expiry -----

  lemma {:induction false} ExpiryCallsProgress(db: Db, db': Db)
    requires db'.items == db.items && db'.batches == db.batches && db.history <= db'.history
    requires ExpiryProgress(db.expiryItems, db'.expiryItems)
    ensures Progress(db, db')
  {
  }

  lemma {:induction false} CompleteChangesRunsOnly(db: Db, day: Day)
    ensures CompleteRun(db, day) == db.(runs := CompleteRun(db, day).runs)
  {
  }

  lemma {:induction false} CompleteAllChangesRunsOnly(db: Db, days: seq<Day>)
    ensures CompleteRuns(db, days) == db.(runs := CompleteRuns(db, days).runs)
  {
    if days != [] {
      CompleteAllChangesRunsOnly(db, days[..|days|-1]);
      CompleteChangesRunsOnly(CompleteRuns(db, days[..|days|-1]), days[|days|-1]);
    }
  }

  lemma {:induction false} ScheduleProgress(db: Db, day: Day, cards: seq<Id>, operations: seq<Id>, itemIds: seq<Id>,
        now: Time)
    requires |cards| <= |operations| && |cards| <= |itemIds|
    ensures var t := ScheduleCards(db, day, cards, operations, itemIds, now);
      t.Commit? ==>
        t.db == db.(operations := t.db.operations, expiryItems := t.db.expiryItems) &&
        forall i :: i in db.expiryItems ==> i in t.db.expiryItems && t.db.expiryItems[i] == db.expiryItems[i]
  {
    if cards != [] { ScheduleProgress(db, day, cards[..|cards|-1], operations, itemIds, now); }
  }

  predicate SchedulesOnly(db: Db, db': Db) {
    db' == db.(operations := db'.operations, expiryItems := db'.expiryItems, runs := db'.runs) &&
    forall i :: i in db.expiryItems ==> i in db'.expiryItems && db'.expiryItems[i] == db.expiryItems[i]
  }

  lemma {:induction false} RunStepsScheduleOnly(db: Db, day: Day)
    ensures SchedulesOnly(db, OpenRun(db, day)) && SchedulesOnly(db, ReopenRun(db, day)) && SchedulesOnly(db,
        CountRun(db, day))
  {
  }

  lemma {:induction false} EnsureProgress(db: Db, day: Day, skipped: set<Id>, operations: seq<Id>, itemIds: seq<Id>,
        now: Time)
    ensures var t := EnsureExpiryRunTx(db, day, skipped, operations, itemIds, now); t.Commit? ==> Progress(db, t.db)
  {
    var t := EnsureExpiryRunTx(db, day, skipped, operations, itemIds, now);
    if t.Commit? {
      var begun := OpenRun(db, day);
      var cards := SelectedCards(begun, day, skipped);
      RunStepsScheduleOnly(db, day);
      RunStepsScheduleOnly(begun, day);
      var ready := if cards != [] then ReopenRun(begun, day) else begun;
      ScheduleProgress(ready, day, cards, operations, itemIds, now);
      var scheduled := ScheduleCards(ready, day, cards, operations, itemIds, now).db;
      RunStepsScheduleOnly(scheduled, day);
      ScheduledProgress(db, begun, ready, scheduled, t.db);
    }
  }

  lemma {:induction false} ScheduledProgress(a: Db, b: Db, c: Db, d: Db, e: Db)
    requires SchedulesOnly(a, b) && SchedulesOnly(b, c) && SchedulesOnly(c, d) && SchedulesOnly(d, e)
    ensures Progress(a, e)
  {
    SameRowsProgress(a.expiryItems, e.expiryItems);
  }

  lemma {:induction false} SameRowsProgress(items: map<Id, ExpiryItem>, items': map<Id, ExpiryItem>)
    requires forall i :: i in items ==> i in items' && items'[i] == items[i]
    ensures ExpiryProgress(items, items')
  {
  }

  lemma {:induction false} ClaimItemProgress(db: Db, owner: Owner, duration: nat, skipped: set<Id>, now1: Time,
        now2: Time)
    ensures Progress(db, ClaimExpiryItemTx(db, owner, duration, skipped, now1, now2).db)
  {
    ExpiryCallsProgress(db, ClaimExpiryItemTx(db, owner, duration, skipped, now1, now2).db);
  }

  lemma {:induction false} RecoverItemsProgress(db: Db, skipped: set<Id>, now1: Time, now2: Time)
    ensures Progress(db, RecoverExpiryItemsTx(db, skipped, now1, now2).db)
  {
    var lost := ExpiredItemLeases(db, skipped, now1);
    var d := db.(expiryItems := RecoveredItems(db, lost, now2));
    CompleteAllChangesRunsOnly(d, DaysOf(db, Ordered(ById(lost))));
    ExpiryCallsProgress(db, RecoverExpiryItemsTx(db, skipped, now1, now2).db);
  }

  lemma {:induction false} ResolvingProgress(items: map<Id, ExpiryItem>, i: Id, result: ExpiryStatus)
    requires i in items && items[i].status == ExpProcessing && !Queueing(result)
    ensures ExpiryProgress(items, items[i := ResolvedItem(items[i], result)])
  {
  }

  lemma {:induction false} ApplyItemProgress(db: Db, token: ExpiryToken, now1: Time, now2: Time)
    ensures var t := ApplyExpiryItemTx(db, token, now1, now2); t.Commit? ==> Progress(db, t.db)
  {
    hide Progress, ExpiryProgress, SucceedOperation, CompletedRun, HasUnresolved;
    var t := ApplyExpiryItemTx(db, token, now1, now2);
    if t.Commit? {
      var result := if db.cards[token.card].status == Expired then ExpSkipped else ExpExpired;
      ResolvingProgress(db.expiryItems, token.item, result);
      ExpiryCallsProgress(db, t.db);
    }
  }

  lemma {:induction false} RequeueItemProgress(db: Db, token: ExpiryToken, delay: nat, now: Time)
    ensures var t := RequeueExpiryItemTx(db, token, delay, now); t.Commit? ==> Progress(db, t.db)
  {
    var t := RequeueExpiryItemTx(db, token, delay, now);
    if t.Commit? { ExpiryCallsProgress(db, t.db); }
  }

  lemma {:induction false} ManualRetryProgress(db: Db, day: Day, item: Id, now: Time)
    ensures var t := ManualRetryTx(db, day, item, now); t.Commit? ==> Progress(db, t.db)
  {
    var t := ManualRetryTx(db, day, item, now);
    if t.Commit? { ExpiryCallsProgress(db, t.db); }
  }

  // A card's past is never rewritten: closed and expired are final.
  lemma {:induction false} RowsOfPrefix(history: seq<HistoryRow>, history': seq<HistoryRow>, card: Id)
    requires history <= history'
    ensures RowsOf(history, card) <= RowsOf(history', card)
  {
    if history == history' {
    } else {
      var n := |history'| - 1;
      assert history <= history'[..n];
      RowsOfPrefix(history, history'[..n], card);
    }
  }

  lemma {:induction false} FinalEndsTheChain(rows: seq<HistoryRow>, k: nat)
    requires Chain(rows) && k < |rows| && Final(rows[k].next)
    ensures k == |rows| - 1
  {
    var next := k + 1;
    assert next < |rows| ==> rows[next].previous == rows[next-1].next && Legal(rows[next].previous, rows[next].next);
  }

  lemma {:induction false} FinalCardsStay(db: Db, db': Db, card: Id)
    requires CardsInv(db) && CardsInv(db') && db.history <= db'.history
    requires card in db.cards && Final(db.cards[card].status)
    ensures card in db'.cards && db'.cards[card].status == db.cards[card].status &&
      db'.cards[card].version == db.cards[card].version
    ensures RowsOf(db'.history, card) == RowsOf(db.history, card)
  {
    var rows, rows' := RowsOf(db.history, card), RowsOf(db'.history, card);
    RowsOfPrefix(db.history, db'.history, card);
    ReplayGivesChains(db.history, card);
    ReplayGivesChains(db'.history, card);
    assert card in Heads(db.cards);
    FinalEndsTheChain(rows', |rows| - 1);
  }
}
