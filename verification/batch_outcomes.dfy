// Completing and failing a batch keep the invariant.
module BatchOutcomes {
  import opened RowOrder
  import opened Lifecycle
  import opened Tables
  import opened CardTransactions
  import opened BatchTransactions
  import opened CardLedger
  import opened Evidence
  import opened ReplacementForest
  import opened RetryLineage
  import opened BatchRefinement
  import opened ShardInvariant

  // ----- the history rows of one applied batch -----

  predicate RowsLegal(rows: seq<LockedRow>, target: Status) {
    forall k :: 0 <= k < |rows| ==> rows[k].status == target || Legal(rows[k].status, target)
  }

  lemma {:induction false} MovesKeepLedger(db: Db, rows: seq<LockedRow>, target: Status)
    requires LedgerOk(db.cards, db.history) && RowsReady(db, rows) && RowsLegal(rows, target)
    ensures LedgerOk(MoveCards(db.cards, CardsIn(rows), target), db.history + Moves(rows, target))
  {
    if rows == [] {
      assert MoveCards(db.cards, {}, target) == db.cards;
      assert db.history + [] == db.history;
    } else {
      var n := |rows| - 1;
      var p, r := rows[..n], rows[n];
      LastIsNew(db, rows);
      hide LedgerOk, RowsReady;
      MovesKeepLedger(db, p, target);
      LastCard(db.cards, CardsIn(p), r.card, target);
      LastMoveKeepsLedger(db, rows, target);
    }
  }

  lemma {:induction false} LastMoveKeepsLedger(db: Db, rows: seq<LockedRow>, target: Status)
    requires rows != [] && RowReady(db, rows[|rows|-1])
    requires rows[|rows|-1].status == target || Legal(rows[|rows|-1].status, target)
    requires var p, r := rows[..|rows|-1], rows[|rows|-1];
      var before := MoveCards(db.cards, CardsIn(p), target);
      r.card in before && before[r.card] == db.cards[r.card] && LedgerOk(before, db.history + Moves(p, target)) &&
      MoveCards(db.cards, CardsIn(rows), target) ==
        (if r.status == target then before else before[r.card := Moved(db.cards[r.card], target)])
    ensures LedgerOk(MoveCards(db.cards, CardsIn(rows), target), db.history + Moves(rows, target))
  {
    hide LedgerOk, MoveCards;
    var p, r := rows[..|rows|-1], rows[|rows|-1];
    var before := db.(cards := MoveCards(db.cards, CardsIn(p), target), history := db.history + Moves(p, target));
    if r.status == target {
      assert db.history + Moves(rows, target) == before.history;
    } else {
      PostKeepsLedger(before, r.card, r.operation, target);
      assert db.history + Moves(rows, target) == before.history + [HistoryRow(r.card, r.operation, r.status, target)];
    }
  }

  lemma {:induction false} MovesComeFromRows(rows: seq<LockedRow>, target: Status, k: nat) returns (j: nat)
    requires k < |Moves(rows, target)|
    ensures j < |rows|
    ensures Moves(rows, target)[k] == HistoryRow(rows[j].card, rows[j].operation, rows[j].status, target)
  {
    var n := |rows| - 1;
    if k < |Moves(rows[..n], target)| { j := MovesComeFromRows(rows[..n], target, k); } else { j := n; }
  }

  lemma {:induction false} RowsForConcat(history: seq<HistoryRow>, more: seq<HistoryRow>, operation: Id)
    ensures RowsFor(history + more, operation) == RowsFor(history, operation) + RowsFor(more, operation)
  {
    if more == [] {
      assert history + more == history;
    } else {
      var n := |more| - 1;
      RowsForConcat(history, more[..n], operation);
      assert (history + more)[..|history + more| - 1] == history + more[..n];
    }
  }

  lemma {:induction false} OtherOperationsGetNoRows(rows: seq<LockedRow>, target: Status, operation: Id)
    requires operation !in OperationsIn(rows)
    ensures RowsFor(Moves(rows, target), operation) == []
  {
    if rows != [] {
      var n := |rows| - 1;
      OtherOperationsGetNoRows(rows[..n], target, operation);
      if rows[n].status != target {
        RowsForAppend(Moves(rows[..n], target), HistoryRow(rows[n].card, rows[n].operation, rows[n].status, target),
            operation);
      } else {
        assert Moves(rows, target) == Moves(rows[..n], target);
      }
    }
  }

  // Each row's operation gets exactly its own move.
  lemma {:induction false} OwnRow(db: Db, rows: seq<LockedRow>, target: Status, k: nat)
    requires RowsReady(db, rows) && k < |rows|
    ensures RowsFor(Moves(rows, target), rows[k].operation) ==
      (if rows[k].status != target then [HistoryRow(rows[k].card, rows[k].operation, rows[k].status, target)] else [])
  {
    var n := |rows| - 1;
    var p, r := rows[..n], rows[n];
    LastIsNew(db, rows);
    if k < n { OwnRow(db, p, target, k); } else { OtherOperationsGetNoRows(p, target, r.operation); }
    if r.status != target {
      RowsForAppend(Moves(p, target), HistoryRow(r.card, r.operation, r.status, target), rows[k].operation);
    } else {
      assert Moves(rows, target) == Moves(p, target);
    }
  }

  // ----- applying -----

  function Finished(db: Db, batch: Id, target: Status): Db
    requires batch in db.batches
  {
    var d := AppliedAtOnce(db, batch, target);
    d.(batches := db.batches[batch := Completed(db.batches[batch],
         |WithOutcome(d.items, batch, OutcomeApplied)|, |WithOutcome(d.items, batch, OutcomeIgnored)|)])
  }

  predicate MayFinish(db: Db, batch: Id, target: Status) {
    batch in db.batches && db.batches[batch].status == Processing && db.batches[batch].target == target &&
    EveryMoveLegal(db, batch, target)
  }

  lemma {:induction false} RowsAreLegal(db: Db, batch: Id, target: Status)
    requires EveryMoveLegal(db, batch, target)
    ensures RowsLegal(LockedRows(db, batch), target)
  {
  }

  lemma {:induction false} MoveCardsIsForward(cards: map<Id, Card>, these: set<Id>, target: Status)
    requires Underway(target)
    ensures MovesForward(cards, MoveCards(cards, these, target))
  {
  }

  lemma {:induction false} FinishKeepsCards(db: Db, batch: Id, target: Status)
    requires CardsInv(db) && Ready(db) && MayFinish(db, batch, target) && Underway(target)
    ensures CardsInv(Finished(db, batch, target))
  {
    hide LedgerOk, ForestOk, HistoryOwned, RowsReady, RowsLegal, MovesForward, EvidenceOk, MembershipOk;
    var rows := LockedRows(db, batch);
    MoveCardsIsForward(db.cards, CardsOfBatch(db.items, batch), target);
    BatchRowsReady(db, batch);
    RowsCoverBatch(db, batch);
    RowsAreLegal(db, batch, target);
    MovesKeepLedger(db, rows, target);
    ForwardKeepsForest(db.cards, db.history, MoveCards(db.cards, CardsOfBatch(db.items, batch), target), Moves(rows,
        target));
    FinishKeepsOwnership(db, batch, target);
  }

  lemma {:induction false} SucceedKeepsOwnership(operations: map<Id, Operation>, these: set<Id>,
        history: seq<HistoryRow>,
        more: seq<HistoryRow>)
    requires HistoryOwned(operations, history)
    requires forall k :: 0 <= k < |more| ==>
      more[k].operation in operations && more[k].operation in these &&
      operations[more[k].operation].card == more[k].card
    ensures HistoryOwned(SucceedOperations(operations, these), history + more)
  {
  }

  lemma {:induction false} FinishKeepsOwnership(db: Db, batch: Id, target: Status)
    requires HistoryOwned(db.operations, db.history) && EvidenceOk(db)
    ensures var d := AppliedAtOnce(db, batch, target); HistoryOwned(d.operations, d.history)
  {
    var rows := LockedRows(db, batch);
    var more := Moves(rows, target);
    forall k | 0 <= k < |more|
      ensures more[k].operation in db.operations && more[k].operation in OperationsOfBatch(db.items, batch) &&
        db.operations[more[k].operation].card == more[k].card
    {
      var j := MovesComeFromRows(rows, target, k);
      assert ItemOk(db, rows[j].item);
      assert db.items[rows[j].item].batch == batch;
    }
    SucceedKeepsOwnership(db.operations, OperationsOfBatch(db.items, batch), db.history, more);
  }

  // The one history row, or none, that an applied batch writes for an item.
  lemma {:induction false} FinishedRows(db: Db, batch: Id, target: Status, i: Id)
    requires Ready(db) && batch in db.batches && db.batches[batch].status == Processing
    requires i in db.items && db.items[i].batch == batch
    ensures ItemOk(db, i) && RowsFor(db.history, db.items[i].operation) == []
    ensures var was := db.cards[db.items[i].card].status; var o := db.items[i].operation;
      RowsFor(db.history + Moves(LockedRows(db, batch), target), o) ==
        (if was != target then [HistoryRow(db.items[i].card, o, was, target)] else [])
  {
    var rows := LockedRows(db, batch);
    assert ItemOk(db, i);
    BatchRowsReady(db, batch);
    var k := RowOfItem(db, batch, i);
    OwnRow(db, rows, target, k);
    RowsForConcat(db.history, Moves(rows, target), db.items[i].operation);
  }

  lemma {:induction false} FinishedItem(db: Db, batch: Id, target: Status, i: Id)
    requires Ready(db) && MayFinish(db, batch, target)
    requires i in db.items && db.items[i].batch == batch
    ensures ItemOk(Finished(db, batch, target), i)
  {
    FinishedRows(db, batch, target, i);
    var d := Finished(db, batch, target);
    var item, o := db.items[i], db.items[i].operation;
    assert o in OperationsOfBatch(db.items, batch);
    assert d.operations[o] == db.operations[o].(status := OpSucceeded);
    assert d.items[i] == BatchRefinement.Settled(item, db.cards, target);
    assert d.batches[batch].status == Succeeded && d.batches[batch].target == target;
  }

  lemma {:induction false} OtherItem(db: Db, batch: Id, target: Status, i: Id)
    requires Ready(db) && MayFinish(db, batch, target)
    requires i in db.items && db.items[i].batch != batch
    ensures ItemOk(Finished(db, batch, target), i)
  {
    assert ItemOk(db, i);
    RowsCoverBatch(db, batch);
    assert db.items[i].operation !in OperationsOfBatch(db.items, batch);
    OtherOperationsGetNoRows(LockedRows(db, batch), target, db.items[i].operation);
    RowsForConcat(db.history, Moves(LockedRows(db, batch), target), db.items[i].operation);
  }

  lemma {:induction false} SettledTallies(items: map<Id, BatchItem>, cards: map<Id, Card>, batch: Id, target: Status,
        b: Id)
    requires b != batch
    ensures var t := SettleItems(items, ItemsOfBatch(items, batch), cards, target);
      ItemsOfBatch(t, b) == ItemsOfBatch(items, b) && ItemsOfBatch(t, batch) == ItemsOfBatch(items, batch) &&
      WithOutcome(t, b, OutcomeApplied) == WithOutcome(items, b, OutcomeApplied) &&
      WithOutcome(t, b, OutcomeIgnored) == WithOutcome(items, b, OutcomeIgnored)
  {
  }

  lemma {:induction false} SettlingKeepsMembers(items: map<Id, BatchItem>, cards: map<Id, Card>, batch: Id,
        target: Status)
    ensures ItemsOfBatch(SettleItems(items, ItemsOfBatch(items, batch), cards, target), batch) == ItemsOfBatch(items,
        batch)
  {
  }

  lemma {:induction false} FinishedBatchOk(db: Db, batch: Id, target: Status)
    requires Ready(db) && BatchesOk(db.batches, db.items) && MayFinish(db, batch, target)
    ensures var d := Finished(db, batch, target); BatchOk(batch, d.batches[batch], d.items)
  {
    assert BatchOk(batch, db.batches[batch], db.items);
    BatchRowsReady(db, batch);
    TalliesOfBatch(db, batch, target);
    SettlingKeepsMembers(db.items, db.cards, batch, target);
    hide Ready, EvidenceOk, MembershipOk, RowsReady, BatchesOk, LockedRows, AppliedAmong, SettleItems, ItemsOfBatch,
         WithOutcome, MoveCards, SucceedOperations, Moves, EveryMoveLegal;
  }

  lemma {:induction false} OtherBatchOk(db: Db, batch: Id, target: Status, b: Id)
    requires BatchesOk(db.batches, db.items) && MayFinish(db, batch, target)
    requires b in db.batches && b != batch
    ensures var d := Finished(db, batch, target); BatchOk(b, d.batches[b], d.items)
  {
    assert BatchOk(b, db.batches[b], db.items);
    SettledTallies(db.items, db.cards, batch, target, b);
    hide BatchesOk, LockedRows, SettleItems, ItemsOfBatch, WithOutcome, MoveCards, SucceedOperations, Moves,
         EveryMoveLegal;
  }

  lemma {:induction false} FinishKeepsBatches(db: Db, batch: Id, target: Status)
    requires Ready(db) && BatchesOk(db.batches, db.items) && MayFinish(db, batch, target)
    ensures var d := Finished(db, batch, target); BatchesOk(d.batches, d.items)
  {
    hide Ready, BatchOk, EveryMoveLegal, AppliedAtOnce;
    var d := Finished(db, batch, target);
    forall b | b in d.batches ensures BatchOk(b, d.batches[b], d.items) {
      if b == batch { FinishedBatchOk(db, batch, target); } else { OtherBatchOk(db, batch, target, b); }
    }
  }

  lemma {:induction false} FinishKeepsEvidence(db: Db, batch: Id, target: Status)
    requires Ready(db) && MayFinish(db, batch, target)
    ensures EvidenceOk(Finished(db, batch, target))
  {
    var d := Finished(db, batch, target);
    assert d.items.Keys == db.items.Keys;
    forall i | i in d.items ensures ItemOk(d, i) {
      if db.items[i].batch == batch { FinishedItem(db, batch, target, i); } else { OtherItem(db, batch, target, i); }
    }
  }

  lemma {:induction false} FinishKeepsMembership(db: Db, batch: Id, target: Status)
    requires batch in db.batches
    ensures var d := Finished(db, batch, target);
      SameMembership(db.items, d.items) && SameRequests(db.batches, d.batches)
  {
  }

  lemma {:induction false} FinishKeepsBatchInv(db: Db, batch: Id, target: Status)
    requires BatchInv(db) && MayFinish(db, batch, target)
    ensures BatchInv(Finished(db, batch, target))
  {
    FinishKeepsEvidence(db, batch, target);
    FinishKeepsBatches(db, batch, target);
    FinishKeepsMembership(db, batch, target);
    UpdatesKeepLineage(db.batches, db.items, Finished(db, batch, target).batches, Finished(db, batch, target).items);
  }

  lemma {:induction false} FinishKeepsExpiry(db: Db, batch: Id, target: Status)
    requires ExpiryInv(db) && EvidenceOk(db) && batch in db.batches
    ensures ExpiryInv(Finished(db, batch, target))
  {
    var d := Finished(db, batch, target);
    RowsCoverBatch(db, batch);
    forall e | e in db.expiryItems ensures SameEvidence(db, d, db.expiryItems[e].operation) {
      var o := db.expiryItems[e].operation;
      forall i | i in db.items && db.items[i].batch == batch ensures db.items[i].operation != o {
        OperationsAreSeparate(db, i, e);
      }
      OtherOperationsGetNoRows(LockedRows(db, batch), target, o);
      RowsForConcat(db.history, Moves(LockedRows(db, batch), target), o);
    }
    ExpiryFrame(db, d);
  }

  lemma {:induction false} ApplyKeepsInv(db: Db, token: BatchToken, now1: Time, now2: Time)
    requires Inv(db)
    requires token.batch in db.batches ==> db.batches[token.batch].target == token.target
    ensures var t := ApplyBatchTx(db, token, now1, now2); t.Commit? ==> Inv(t.db)
  {
    ApplyBatchIsAtomic(db, token, now1, now2);
    if ApplyBatchTx(db, token, now1, now2).Commit? {
      assert BatchOk(token.batch, db.batches[token.batch], db.items);
      FinishKeepsCards(db, token.batch, token.target);
      FinishKeepsBatchInv(db, token.batch, token.target);
      FinishKeepsExpiry(db, token.batch, token.target);
    }
  }

  // ----- failing -----

  lemma {:induction false} FailedItemOk(db: Db, d: Db, token: BatchToken, i: Id)
    requires Ready(db) && LeaseHeldOnly(db, token) && FailsTo(db, d, token)
    requires i in db.items
    ensures ItemOk(d, i)
  {
    assert ItemOk(db, i);
    var o := db.items[i].operation;
    if db.items[i].batch == token.batch {
      assert OperationOfBatch(db, o, token.batch);
    } else {
      assert !OperationOfBatch(db, o, token.batch);
    }
  }

  predicate LeaseHeldOnly(db: Db, token: BatchToken) {
    token.batch in db.batches && db.batches[token.batch].status == Processing
  }

  ghost predicate FailsTo(db: Db, d: Db, token: BatchToken) {
    exists code: Code ::
      d == db.(items := FailedItems(db, token, code), operations := FailedOperations(db, token.batch),
          batches := d.batches) &&
      token.batch in db.batches &&
      d.batches == db.batches[token.batch := FailedRow(db.batches[token.batch], code, |WithOutcome(d.items,
          token.batch, OutcomeIgnored)|)]
  }

  lemma {:induction false} FailedTallies(db: Db, token: BatchToken, code: Code, b: Id)
    requires b != token.batch
    ensures var t := FailedItems(db, token, code);
      ItemsOfBatch(t, b) == ItemsOfBatch(db.items, b) &&
      WithOutcome(t, b, OutcomeApplied) == WithOutcome(db.items, b, OutcomeApplied) &&
      WithOutcome(t, b, OutcomeIgnored) == WithOutcome(db.items, b, OutcomeIgnored)
  {
  }

  lemma {:induction false} FailKeepsBatches(db: Db, d: Db, token: BatchToken)
    requires BatchesOk(db.batches, db.items) && LeaseHeldOnly(db, token) && FailsTo(db, d, token)
    ensures BatchesOk(d.batches, d.items)
  {
    var code: Code :|
      d == db.(items := FailedItems(db, token, code), operations := FailedOperations(db, token.batch),
          batches := d.batches) &&
      d.batches == db.batches[token.batch := FailedRow(db.batches[token.batch], code, |WithOutcome(d.items,
          token.batch, OutcomeIgnored)|)];
    forall b | b in d.batches ensures BatchOk(b, d.batches[b], d.items) {
      assert BatchOk(b, db.batches[b], db.items);
      if b != token.batch { FailedTallies(db, token, code, b); } else {
        assert ItemsOfBatch(d.items, b) == ItemsOfBatch(db.items, b);
      }
    }
  }

  lemma {:induction false} FailKeepsMembership(db: Db, d: Db, token: BatchToken)
    requires FailsTo(db, d, token)
    ensures SameMembership(db.items, d.items) && SameRequests(db.batches, d.batches)
  {
  }

  lemma {:induction false} FailKeepsExpiry(db: Db, d: Db, token: BatchToken)
    requires ExpiryInv(db) && EvidenceOk(db) && FailsTo(db, d, token)
    ensures ExpiryInv(d)
  {
    forall e | e in db.expiryItems ensures SameEvidence(db, d, db.expiryItems[e].operation) {
      var o := db.expiryItems[e].operation;
      if OperationOfBatch(db, o, token.batch) {
        var j :| j in db.items && db.items[j].batch == token.batch && db.items[j].operation == o;
        OperationsAreSeparate(db, j, e);
      }
    }
    ExpiryFrame(db, d);
  }

  lemma {:induction false} FailKeepsOwnership(db: Db, d: Db, token: BatchToken)
    requires HistoryOwned(db.operations, db.history) && FailsTo(db, d, token)
    ensures HistoryOwned(d.operations, d.history)
  {
  }

  lemma {:induction false} FailureKeepsInv(db: Db, d: Db, token: BatchToken)
    requires Inv(db) && LeaseHeldOnly(db, token) && FailsTo(db, d, token)
    ensures Inv(d)
  {
    FailKeepsOwnership(db, d, token);
    FailKeepsMembership(db, d, token);
    forall i | i in d.items ensures ItemOk(d, i) { FailedItemOk(db, d, token, i); }
    FailKeepsBatches(db, d, token);
    UpdatesKeepLineage(db.batches, db.items, d.batches, d.items);
    FailKeepsExpiry(db, d, token);
  }

  lemma {:induction false} FailKeepsInv(db: Db, token: BatchToken, code: Code, now1: Time, now2: Time)
    requires Inv(db)
    ensures var t := FailBatchTx(db, token, code, now1, now2); t.Commit? ==> Inv(t.db)
  {
    var t := FailBatchTx(db, token, code, now1, now2);
    if t.Commit? {
      assert t.db == db.(items := FailedItems(db, token, SafeBatchCode(code)),
                         operations := FailedOperations(db, token.batch), batches := t.db.batches);
      FailureKeepsInv(db, t.db, token);
    }
  }
}
