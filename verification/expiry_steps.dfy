// Expiry transactions keep the invariant.
module ExpirySteps {
  import opened RowOrder
  import opened Lifecycle
  import opened Tables
  import opened CardTransactions
  import opened ExpiryTransactions
  import opened CardLedger
  import opened Evidence
  import opened ReplacementForest
  import opened ExpiryAccounting
  import opened ShardInvariant

  // ----- run totals -----

  lemma {:induction false} CompleteKeepsInv(db: Db, day: Day)
    requires Inv(db)
    ensures Inv(CompleteRun(db, day))
  {
    CompleteKeepsRuns(db, day);
    RunsKeepInv(db, CompleteRun(db, day).runs);
  }

  lemma {:induction false} CompleteAllKeepsInv(db: Db, days: seq<Day>)
    requires Inv(db)
    ensures Inv(CompleteRuns(db, days))
  {
    CompleteAllKeepsRuns(db, days);
    RunsKeepInv(db, CompleteRuns(db, days).runs);
  }

  lemma {:induction false} RunsKeepInv(db: Db, runs': map<Day, ExpiryRun>)
    requires Inv(db) && db.runs.Keys <= runs'.Keys && RunsOk(runs', db.expiryItems)
    ensures Inv(db.(runs := runs'))
  {
    EvidenceFrame(db, db.(runs := runs'));
    ExpiryFrame(db, db.(runs := runs'));
  }

  // ----- steps that keep an item's operation queued -----

  predicate Queueing(s: ExpiryStatus) {
    s != ExpExpired && s != ExpSkipped
  }

  predicate SameSchedule(items: map<Id, ExpiryItem>, items': map<Id, ExpiryItem>) {
    items.Keys == items'.Keys &&
    forall i :: i in items ==>
      items'[i].day == items[i].day && items'[i].card == items[i].card && items'[i].operation == items[i].operation
  }

  predicate QueueMove(db: Db, row: ExpiryItem, row': ExpiryItem) {
    AccountOk(row') && Queueing(row.status) && Queueing(row'.status) &&
    (row.day in db.runs ==> !db.runs[row.day].completed)
  }

  predicate QueueMoves(db: Db, items': map<Id, ExpiryItem>) {
    SameSchedule(db.expiryItems, items') &&
    forall i :: i in db.expiryItems ==>
      items'[i] == db.expiryItems[i] || QueueMove(db, db.expiryItems[i], items'[i])
  }

  lemma {:induction false} QueueMovesKeepInv(db: Db, items': map<Id, ExpiryItem>)
    requires Inv(db) && QueueMoves(db, items')
    ensures Inv(db.(expiryItems := items'))
  {
    var d := db.(expiryItems := items');
    EvidenceFrame(db, d);
    QueueMovesKeepExpiry(db, items');
  }

  lemma {:induction false} QueueMovesKeepExpiry(db: Db, items': map<Id, ExpiryItem>)
    requires ExpiryInv(db) && QueueMoves(db, items')
    ensures ExpiryInv(db.(expiryItems := items'))
  {
    QueueMovesKeepEvidence(db, items');
    QueueMovesKeepAccounts(db, items');
    OpenRunsAbsorbChanges(db.runs, db.expiryItems, items');
    hide ExpiryEvidenceOk, RunsOk, AccountsOk, QueueMove;
  }

  lemma {:induction false} QueueMovesKeepEvidence(db: Db, items': map<Id, ExpiryItem>)
    requires ExpiryEvidenceOk(db) && QueueMoves(db, items')
    ensures ExpiryEvidenceOk(db.(expiryItems := items'))
  {
    var d := db.(expiryItems := items');
    forall i | i in d.expiryItems ensures ExpiryItemOk(d, i) { assert ExpiryItemOk(db, i); }
  }

  lemma {:induction false} QueueMovesKeepAccounts(db: Db, items': map<Id, ExpiryItem>)
    requires AccountsOk(db.expiryItems) && QueueMoves(db, items')
    ensures AccountsOk(items')
  {
  }

  lemma {:induction false} OneQueueMove(db: Db, i: Id, row': ExpiryItem)
    requires Inv(db) && i in db.expiryItems
    requires var row := db.expiryItems[i];
      row'.day == row.day && row'.card == row.card && row'.operation == row.operation && QueueMove(db, row, row')
    ensures Inv(db.(expiryItems := db.expiryItems[i := row']))
  {
    QueueMovesKeepInv(db, db.expiryItems[i := row']);
  }

  lemma {:induction false} UnresolvedIsMovable(db: Db, i: Id)
    requires ExpiryInv(db) && i in db.expiryItems && Unresolved(db.expiryItems[i])
    ensures AccountOk(db.expiryItems[i]) && db.expiryItems[i].day in db.runs &&
      !db.runs[db.expiryItems[i].day].completed
  {
    assert ExpiryItemOk(db, i);
    UnresolvedRunIsOpen(db.runs, db.expiryItems, i);
  }

  lemma {:induction false} ClaimOneKeepsInv(db: Db, i: Id, owner: Owner, until: Time)
    requires Inv(db) && i in db.expiryItems && db.expiryItems[i].status == ExpPending
    ensures Inv(db.(expiryItems := db.expiryItems[i := ClaimedItem(db.expiryItems[i], owner, until)]))
  {
    assert ExpiryInv(db);
    hide Inv, ExpiryInv;
    UnresolvedIsMovable(db, i);
    OneQueueMove(db, i, ClaimedItem(db.expiryItems[i], owner, until));
  }

  lemma {:induction false} ClaimItemKeepsInv(db: Db, owner: Owner, duration: nat, skipped: set<Id>, now1: Time,
        now2: Time)
    requires Inv(db)
    ensures Inv(ClaimExpiryItemTx(db, owner, duration, skipped, now1, now2).db)
  {
    hide Inv, ClaimedItem;
    var due := DueItems(db, skipped, now1);
    if due.Keys != {} {
      ClaimOneKeepsInv(db, Least(due), owner, now2 + duration);
    }
  }

  lemma {:induction false} FailedAccount(row: ExpiryItem, at: Time)
    requires AccountOk(row) && row.status == ExpProcessing
    ensures AccountOk(ExpiryTransactions.Failed(row, row.automaticRetries >= AUTOMATIC_RETRY_LIMIT, at))
  {
  }

  lemma {:induction false} RecoveryIsQueueing(db: Db, lost: set<Id>, now: Time)
    requires ExpiryInv(db)
    requires forall i :: i in lost ==> i in db.expiryItems && db.expiryItems[i].status == ExpProcessing
    ensures QueueMoves(db, RecoveredItems(db, lost, now))
  {
    hide ExpiryInv;
    var items' := RecoveredItems(db, lost, now);
    forall i | i in db.expiryItems
      ensures items'[i] == db.expiryItems[i] || QueueMove(db, db.expiryItems[i], items'[i])
    {
      if i in lost {
        UnresolvedIsMovable(db, i);
        FailedAccount(db.expiryItems[i], now);
      }
    }
  }

  lemma {:induction false} RecoverItemsKeepsInv(db: Db, skipped: set<Id>, now1: Time, now2: Time)
    requires Inv(db)
    ensures Inv(RecoverExpiryItemsTx(db, skipped, now1, now2).db)
  {
    var lost := ExpiredItemLeases(db, skipped, now1);
    RecoveryIsQueueing(db, lost, now2);
    QueueMovesKeepInv(db, RecoveredItems(db, lost, now2));
    CompleteAllKeepsInv(db.(expiryItems := RecoveredItems(db, lost, now2)), DaysOf(db, Ordered(ById(lost))));
  }

  // A claim's snapshot of its row. The retry count is right while the lease is live.
  predicate SnapshotOk(expiryItems: map<Id, ExpiryItem>, token: ExpiryToken) {
    token.item in expiryItems &&
    var row := expiryItems[token.item];
    token.day == row.day && token.card == row.card && token.operation == row.operation &&
    token.leaseVersion <= row.leaseVersion &&
    (row.status == ExpProcessing && row.leaseVersion == token.leaseVersion ==>
      token.automaticRetries == row.automaticRetries && row.lease.Some? && row.lease.value.owner == token.owner)
  }

  lemma {:induction false} RequeueItemKeepsInv(db: Db, token: ExpiryToken, delay: nat, now: Time)
    requires Inv(db) && SnapshotOk(db.expiryItems, token)
    ensures var t := RequeueExpiryItemTx(db, token, delay, now); t.Commit? ==> Inv(t.db)
  {
    if ExpiryLeaseHeld(db, token, now) {
      var row := db.expiryItems[token.item];
      var row' := ExpiryTransactions.Failed(row, token.automaticRetries >= AUTOMATIC_RETRY_LIMIT, now + delay);
      UnresolvedIsMovable(db, token.item);
      FailedAccount(row, now + delay);
      OneQueueMove(db, token.item, row');
      CompleteKeepsInv(db.(expiryItems := db.expiryItems[token.item := row']), token.day);
    }
  }

  lemma {:induction false} ReopenKeepsInv(db: Db, day: Day)
    requires Inv(db)
    ensures Inv(ReopenRun(db, day))
  {
    var d := ReopenRun(db, day);
    if d != db {
      forall k | k in d.runs ensures RunOk(k, d.runs[k], db.expiryItems) { assert RunOk(k, db.runs[k],
          db.expiryItems); }
      RunsKeepInv(db, d.runs);
    }
  }

  function Requeued(row: ExpiryItem, now: Time): ExpiryItem {
    row.(status := ExpPending, manualRetries := row.manualRetries + 1, nextAttemptAt := now)
  }

  lemma {:induction false} ManualRetryShape(db: Db, day: Day, item: Id, now: Time)
    requires ExpiryInv(db)
    ensures var t := ManualRetryTx(db, day, item, now);
      t.Commit? ==> (
        item in db.expiryItems && day in db.runs && db.expiryItems[item].day == day &&
        QueueMove(ReopenRun(db, day), db.expiryItems[item], Requeued(db.expiryItems[item], now)) &&
        t.db == ReopenRun(db, day).(expiryItems := db.expiryItems[item := Requeued(db.expiryItems[item], now)]))
  {
    if ManualRetryTx(db, day, item, now).Commit? {
      assert ExpiryItemOk(db, item) && AccountOk(db.expiryItems[item]);
      if !db.runs[day].completed { assert db.runs[day := db.runs[day].(completed := false)] == db.runs; }
    }
  }

  lemma {:induction false} ManualRetryKeepsInv(db: Db, day: Day, item: Id, now: Time)
    requires Inv(db)
    ensures var t := ManualRetryTx(db, day, item, now); t.Commit? ==> Inv(t.db)
  {
    ManualRetryShape(db, day, item, now);
    if ManualRetryTx(db, day, item, now).Commit? {
      ReopenKeepsInv(db, day);
      OneQueueMove(ReopenRun(db, day), item, Requeued(db.expiryItems[item], now));
    }
  }

  // ----- expiring a card -----

  function Resolved(db: Db, i: Id, result: ExpiryStatus): Db
    requires i in db.expiryItems
  {
    var row := db.expiryItems[i];
    db.(operations := SucceedOperation(db.operations, row.operation),
        expiryItems := db.expiryItems[i := ResolvedItem(row, result)])
  }

  predicate ReadyToResolve(db: Db, i: Id) {
    i in db.expiryItems && db.expiryItems[i].status == ExpProcessing
  }

  lemma {:induction false} SucceedKeepsCards(db: Db, operation: Id)
    requires CardsInv(db)
    ensures CardsInv(db.(operations := SucceedOperation(db.operations, operation)))
  {
  }

  lemma {:induction false} ResolveKeepsAccounts(items: map<Id, ExpiryItem>, i: Id, result: ExpiryStatus)
    requires AccountsOk(items) && ScheduleOk(items)
    requires i in items && items[i].status == ExpProcessing && !Queueing(result)
    ensures var items' := items[i := ResolvedItem(items[i], result)]; AccountsOk(items') && ScheduleOk(items')
  {
  }

  lemma {:induction false} ResolveKeepsRuns(db: Db, i: Id, result: ExpiryStatus)
    requires ExpiryInv(db) && ReadyToResolve(db, i) && !Queueing(result)
    ensures var d := Resolved(db, i, result);
      RunsOk(d.runs, d.expiryItems) && AccountsOk(d.expiryItems) && ScheduleOk(d.expiryItems)
  {
    UnresolvedIsMovable(db, i);
    hide ExpiryEvidenceOk, RunsOk, AccountsOk, ScheduleOk;
    ResolveKeepsAccounts(db.expiryItems, i, result);
    OpenRunsAbsorbChanges(db.runs, db.expiryItems, db.expiryItems[i := ResolvedItem(db.expiryItems[i], result)]);
  }

  lemma {:induction false} SameBatchEvidence(db: Db, d: Db, i: Id)
    requires BatchInv(db) && ExpiryEvidenceOk(db) && i in db.expiryItems
    requires d.items == db.items && d.batches == db.batches && db.cards.Keys <= d.cards.Keys
    requires d.operations == SucceedOperation(db.operations, db.expiryItems[i].operation)
    requires d.history == db.history ||
      exists r: HistoryRow :: r.operation == db.expiryItems[i].operation && d.history == db.history + [r]
    ensures BatchInv(d)
  {
    forall b | b in db.items ensures SameEvidence(db, d, db.items[b].operation) {
      OperationsAreSeparate(db, b, i);
      if d.history != db.history {
        var r: HistoryRow :| r.operation == db.expiryItems[i].operation && d.history == db.history + [r];
        RowsForAppend(db.history, r, db.items[b].operation);
      }
    }
    EvidenceFrame(db, d);
  }

  // The card was already expired: only the evidence moves.
  lemma {:induction false} SkipKeepsInv(db: Db, i: Id)
    requires Inv(db) && ReadyToResolve(db, i)
    ensures Inv(Resolved(db, i, ExpSkipped))
  {
    var d := Resolved(db, i, ExpSkipped);
    SucceedKeepsCards(db, db.expiryItems[i].operation);
    ResolveKeepsRuns(db, i, ExpSkipped);
    SameBatchEvidence(db, d, i);
    SkipKeepsEvidence(db, i);
  }

  lemma {:induction false} SkipKeepsEvidence(db: Db, i: Id)
    requires ExpiryInv(db) && ReadyToResolve(db, i)
    ensures ExpiryEvidenceOk(Resolved(db, i, ExpSkipped))
  {
    var d := Resolved(db, i, ExpSkipped);
    forall e | e in d.expiryItems ensures ExpiryItemOk(d, e) { assert ExpiryItemOk(db, e); }
  }

  function ExpiredBy(db: Db, i: Id, now: Time): Db
    requires i in db.expiryItems && db.expiryItems[i].card in db.cards
  {
    var row := db.expiryItems[i];
    var d := Resolved(db, i, ExpExpired);
    StampExpiry(Post(d, row.card, row.operation, db.cards[row.card].status, Expired), row.card, now)
  }

  predicate MayExpire(db: Db, i: Id) {
    ReadyToResolve(db, i) && db.expiryItems[i].card in db.cards && Legal(db.cards[db.expiryItems[i].card].status,
        Expired)
  }

  lemma {:induction false} ExpireKeepsCards(db: Db, i: Id, now: Time)
    requires CardsInv(db) && ExpiryEvidenceOk(db) && MayExpire(db, i)
    ensures CardsInv(ExpiredBy(db, i, now))
  {
    var row := db.expiryItems[i];
    assert ExpiryItemOk(db, i);
    var d := Resolved(db, i, ExpExpired);
    SucceedKeepsCards(db, row.operation);
    PostKeepsCards(d, row.card, row.operation, Expired);
    StampKeepsCards(Post(d, row.card, row.operation, db.cards[row.card].status, Expired), row.card, now);
  }

  lemma {:induction false} StampKeepsCards(db: Db, card: Id, now: Time)
    requires CardsInv(db)
    ensures CardsInv(StampExpiry(db, card, now))
  {
    hide LedgerOk, ForestOk, HistoryOwned, Underway;
    var d := StampExpiry(db, card, now);
    SameHeads(db.cards, d.cards, db.history);
    ForwardKeepsForest(db.cards, db.history, d.cards, []);
    assert db.history + [] == db.history;
  }

  lemma {:induction false} ExpiredShape(db: Db, i: Id, now: Time)
    requires MayExpire(db, i)
    ensures var d := ExpiredBy(db, i, now); var row := db.expiryItems[i];
      d.history == db.history + [HistoryRow(row.card, row.operation, db.cards[row.card].status, Expired)] &&
      d.operations == SucceedOperation(db.operations, row.operation) &&
      d.expiryItems == db.expiryItems[i := ResolvedItem(row, ExpExpired)] &&
      d.runs == db.runs && d.batches == db.batches && d.items == db.items && d.cards.Keys == db.cards.Keys
  {
  }

  lemma {:induction false} ExpireKeepsEvidence(db: Db, i: Id, now: Time)
    requires ExpiryEvidenceOk(db) && ScheduleOk(db.expiryItems) && MayExpire(db, i)
    ensures ExpiryEvidenceOk(ExpiredBy(db, i, now))
  {
    var d := ExpiredBy(db, i, now);
    var row := db.expiryItems[i];
    ExpiredShape(db, i, now);
    forall e | e in d.expiryItems ensures ExpiryItemOk(d, e) {
      assert ExpiryItemOk(db, e);
      RowsForAppend(db.history, HistoryRow(row.card, row.operation, db.cards[row.card].status, Expired),
        db.expiryItems[e].operation);
    }
  }

  lemma {:induction false} ExpireKeepsInv(db: Db, i: Id, now: Time)
    requires Inv(db) && MayExpire(db, i)
    ensures Inv(ExpiredBy(db, i, now))
  {
    ExpiredShape(db, i, now);
    ExpireKeepsCards(db, i, now);
    ExpireKeepsEvidence(db, i, now);
    ResolveKeepsRuns(db, i, ExpExpired);
    SameBatchEvidence(db, ExpiredBy(db, i, now), i);
  }

  lemma {:induction false} ApplyItemShape(db: Db, token: ExpiryToken, now1: Time, now2: Time)
    requires SnapshotOk(db.expiryItems, token)
    ensures var t := ApplyExpiryItemTx(db, token, now1, now2);
      t.Commit? ==> (
        token.card in db.cards && ReadyToResolve(db, token.item) && db.expiryItems[token.item].card == token.card &&
        t.db == CompleteRun(
          if db.cards[token.card].status == Expired then Resolved(db, token.item, ExpSkipped) else ExpiredBy(db,
              token.item, now1),
          token.day) &&
        (db.cards[token.card].status == Expired || Transition(db.cards[token.card].status, Expire).valid))
  {
    hide CompleteRun, SucceedOperation;
  }

  lemma {:induction false} ApplyItemKeepsInv(db: Db, token: ExpiryToken, now1: Time, now2: Time)
    requires Inv(db) && SnapshotOk(db.expiryItems, token)
    ensures var t := ApplyExpiryItemTx(db, token, now1, now2); t.Commit? ==> Inv(t.db)
  {
    ApplyItemShape(db, token, now1, now2);
    hide Inv, CompleteRun, ExpiredBy, Resolved, ApplyExpiryItemTx, SnapshotOk;
    var t := ApplyExpiryItemTx(db, token, now1, now2);
    if t.Commit? {
      if db.cards[token.card].status == Expired {
        SkipKeepsInv(db, token.item);
        CompleteKeepsInv(Resolved(db, token.item, ExpSkipped), token.day);
      } else {
        TransitionFollowsTheGraph(db.cards[token.card].status, Expire);
        ExpireKeepsInv(db, token.item, now1);
        CompleteKeepsInv(ExpiredBy(db, token.item, now1), token.day);
      }
    }
  }

  // ----- scheduling -----

  lemma {:induction false} OpenRunKeepsInv(db: Db, day: Day)
    requires Inv(db)
    ensures Inv(OpenRun(db, day)) && day in OpenRun(db, day).runs
  {
    if day !in db.runs {
      var d := OpenRun(db, day);
      forall i | i in db.expiryItems ensures db.expiryItems[i].day != day { assert ExpiryItemOk(db, i); }
      assert ItemsOfRun(db.expiryItems, day) == {};
      forall k | k in d.runs ensures RunOk(k, d.runs[k], db.expiryItems) {
        if k != day { assert RunOk(k, db.runs[k], db.expiryItems); }
      }
      RunsKeepInv(db, d.runs);
    }
  }

  predicate NewItemFits(db: Db, day: Day, card: Id, operation: Id, item: Id) {
    day in db.runs && !db.runs[day].completed && card in db.cards && item !in db.expiryItems &&
    operation in db.operations && db.operations[operation] == Operation(card, Expire, OpQueued) &&
    !Scheduled(db, day, card)
  }

  function WithItem(db: Db, day: Day, card: Id, operation: Id, item: Id, now: Time): Db {
    CountRun(db.(expiryItems := db.expiryItems[item := NewExpiryItem(day, card, operation, now)]), day)
  }

  lemma {:induction false} NewItemKeepsExpiry(db: Db, day: Day, card: Id, operation: Id, item: Id, now: Time)
    requires NewItemFits(db, day, card, operation, item) && RowsFor(db.history, operation) == []
    requires forall e :: e in db.expiryItems ==> db.expiryItems[e].operation != operation
    requires ExpiryInv(CountRun(db, day))
    ensures ExpiryInv(WithItem(db, day, card, operation, item, now))
  {
    NewItemKeepsEvidence(db, day, card, operation, item, now);
    NewItemKeepsSchedule(db, day, card, operation, item, now);
    NewItemKeepsRuns(db, day, card, operation, item, now);
  }

  lemma {:induction false} NewItemKeepsEvidence(db: Db, day: Day, card: Id, operation: Id, item: Id, now: Time)
    requires NewItemFits(db, day, card, operation, item) && RowsFor(db.history, operation) == []
    requires ExpiryEvidenceOk(CountRun(db, day))
    ensures ExpiryEvidenceOk(WithItem(db, day, card, operation, item, now))
  {
    var e := WithItem(db, day, card, operation, item, now);
    forall i | i in e.expiryItems ensures ExpiryItemOk(e, i) {
      if i != item { assert ExpiryItemOk(CountRun(db, day), i); }
    }
  }

  lemma {:induction false} NewItemKeepsSchedule(db: Db, day: Day, card: Id, operation: Id, item: Id, now: Time)
    requires NewItemFits(db, day, card, operation, item)
    requires forall e :: e in db.expiryItems ==> db.expiryItems[e].operation != operation
    requires ScheduleOk(db.expiryItems) && AccountsOk(db.expiryItems)
    ensures var e := WithItem(db, day, card, operation, item,
        now); ScheduleOk(e.expiryItems) && AccountsOk(e.expiryItems)
  {
    forall i | i in db.expiryItems && db.expiryItems[i].day == day ensures db.expiryItems[i].card != card {
      assert !Scheduled(db, day, card);
    }
  }

  lemma {:induction false} NewItemKeepsRuns(db: Db, day: Day, card: Id, operation: Id, item: Id, now: Time)
    requires NewItemFits(db, day, card, operation, item) && RunsOk(CountRun(db, day).runs, db.expiryItems)
    ensures var e := WithItem(db, day, card, operation, item, now); RunsOk(e.runs, e.expiryItems)
  {
    var c := CountRun(db, day);
    var e := WithItem(db, day, card, operation, item, now);
    forall k | k in e.runs ensures RunOk(k, e.runs[k], e.expiryItems) {
      assert RunOk(k, c.runs[k], c.expiryItems);
      if k != day { NewItemTallies(db.expiryItems, item, NewExpiryItem(day, card, operation, now), k); }
    }
  }

  lemma {:induction false} NewItemTallies(items: map<Id, ExpiryItem>, id: Id, item: ExpiryItem, k: Day)
    requires id !in items && item.day != k
    ensures var items' := items[id := item];
      ItemsOfRun(items', k) == ItemsOfRun(items, k) &&
      (forall s :: Tally(items', k, s) == Tally(items, k, s)) &&
      HasUnresolved(items', k) == HasUnresolved(items, k)
  {
    var items' := items[id := item];
    if HasUnresolved(items, k) {
      var i :| i in items && items[i].day == k && Unresolved(items[i]);
      assert i in items' && items'[i] == items[i];
    }
  }

  lemma {:induction false} ScheduleTurn(db: Db, day: Day, card: Id, operation: Id, item: Id, now: Time)
    requires Inv(CountRun(db, day)) && day in db.runs && !db.runs[day].completed && card in db.cards
    ensures var t := ScheduleCard(db, day, card, operation, item, now);
      t.Commit? ==> Inv(CountRun(t.db, day)) && t.db.runs == db.runs && t.db.cards == db.cards
  {
    var t := ScheduleCard(db, day, card, operation, item, now);
    if t.Commit? {
      var o := Operation(card, Expire, OpQueued);
      var recorded := Record(db, operation, o);
      RecordKeepsInv(CountRun(db, day), operation, o);
      assert CountRun(recorded, day) == Record(CountRun(db, day), operation, o);
      if !Scheduled(recorded, day, card) { ScheduleNew(recorded, day, card, operation, item, now); }
    }
  }

  lemma {:induction false} ScheduleNew(db: Db, day: Day, card: Id, operation: Id, item: Id, now: Time)
    requires Inv(CountRun(db, day)) && NewItemFits(db, day, card, operation, item)
    requires Unused(CountRun(db, day), operation)
    ensures Inv(WithItem(db, day, card, operation, item, now))
  {
    var d := WithItem(db, day, card, operation, item, now);
    NoRowsYet(db.operations, db.history, operation);
    NewItemKeepsExpiry(db, day, card, operation, item, now);
    EvidenceFrame(CountRun(db, day), d);
  }

  lemma {:induction false} ScheduleAll(db: Db, day: Day, cards: seq<Id>, operations: seq<Id>, itemIds: seq<Id>,
        now: Time)
    requires |cards| <= |operations| && |cards| <= |itemIds|
    requires Inv(CountRun(db, day)) && day in db.runs && !db.runs[day].completed
    requires forall k :: 0 <= k < |cards| ==> cards[k] in db.cards
    ensures var t := ScheduleCards(db, day, cards, operations, itemIds, now);
      t.Commit? ==> Inv(CountRun(t.db, day)) && t.db.runs == db.runs && t.db.cards == db.cards
  {
    var t := ScheduleCards(db, day, cards, operations, itemIds, now);
    if cards != [] && t.Commit? {
      var n := |cards| - 1;
      ScheduleAll(db, day, cards[..n], operations, itemIds, now);
      var before := ScheduleCards(db, day, cards[..n], operations, itemIds, now).db;
      ScheduleTurn(before, day, cards[n], operations[n], itemIds[n], now);
    }
  }

  lemma {:induction false} CountIsRight(db: Db, day: Day)
    requires RunsOk(db.runs, db.expiryItems)
    ensures CountRun(db, day) == db
  {
    if day in db.runs {
      assert RunOk(day, db.runs[day], db.expiryItems);
      assert db.runs[day := db.runs[day].(itemCount := |ItemsOfRun(db.expiryItems, day)|)] == db.runs;
    }
  }

  lemma {:induction false} SelectedAreCards(db: Db, day: Day, skipped: set<Id>)
    ensures forall k :: 0 <= k < |SelectedCards(db, day, skipped)| ==>
      SelectedCards(db, day, skipped)[k] in DueCards(db, day, skipped)
  {
    var all := Ordered(DueCards(db, day, skipped));
    forall k | 0 <= k < |all| ensures all[k] in DueCards(db, day, skipped) { assert all[k] in all; }
  }

  // A run that starts out right, gets the selected cards scheduled, and is counted again.
  lemma {:induction false} ScheduledRunKeepsInv(begun: Db, day: Day, skipped: set<Id>, operations: seq<Id>,
        itemIds: seq<Id>, now: Time)
    requires Inv(begun) && day in begun.runs
    requires var cards := SelectedCards(begun, day,
        skipped); cards != [] && |cards| <= |operations| && |cards| <= |itemIds|
    ensures var t := ScheduleCards(ReopenRun(begun, day), day, SelectedCards(begun, day, skipped), operations, itemIds,
        now);
      t.Commit? ==> Inv(CountRun(t.db, day))
  {
    var ready := ReopenRun(begun, day);
    ReopenKeepsInv(begun, day);
    CountIsRight(ready, day);
    SelectedAreCards(begun, day, skipped);
    hide Inv, SelectedCards, CountRun;
    ScheduleAll(ready, day, SelectedCards(begun, day, skipped), operations, itemIds, now);
  }

  lemma {:induction false} EnsureKeepsInv(db: Db, day: Day, skipped: set<Id>, operations: seq<Id>, itemIds: seq<Id>,
        now: Time)
    requires Inv(db)
    ensures var t := EnsureExpiryRunTx(db, day, skipped, operations, itemIds, now); t.Commit? ==> Inv(t.db)
  {
    var t := EnsureExpiryRunTx(db, day, skipped, operations, itemIds, now);
    if t.Commit? {
      var begun := OpenRun(db, day);
      OpenRunKeepsInv(db, day);
      assert RunsOk(begun.runs, begun.expiryItems);
      CountIsRight(begun, day);
      hide Inv, RunsOk, SelectedCards, OpenRun, ReopenRun, CountRun;
      if SelectedCards(begun, day, skipped) != [] {
        ScheduledRunKeepsInv(begun, day, skipped, operations, itemIds, now);
      }
    }
  }
}
