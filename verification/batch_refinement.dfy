// The item-by-item loop of ApplyBatch is one atomic step over the batch's cards.
module BatchRefinement {
  import opened Wrappers
  import opened RowOrder
  import opened Lifecycle
  import opened Tables
  import opened CardTransactions
  import opened BatchTransactions
  import opened Evidence

  // ----- the atomic step, stated on the tables and not on the loop -----

  function CardsOfBatch(items: map<Id, BatchItem>, batch: Id): set<Id> {
    set i | i in items && items[i].batch == batch :: items[i].card
  }

  function OperationsOfBatch(items: map<Id, BatchItem>, batch: Id): set<Id> {
    set i | i in items && items[i].batch == batch :: items[i].operation
  }

  // Every one of the cards that is not at the target moves there, with one version bump.
  function MoveCards(cards: map<Id, Card>, these: set<Id>, target: Status): map<Id, Card> {
    map c | c in cards ::
      if c in these && cards[c].status != target then Moved(cards[c], target) else cards[c]
  }

  function Settled(item: BatchItem, cards: map<Id, Card>, target: Status): BatchItem {
    if item.card in cards && cards[item.card].status != target
    then item.(outcome := OutcomeApplied, previous := Some(cards[item.card].status))
    else item.(outcome := OutcomeIgnored)
  }

  function SettleItems(items: map<Id, BatchItem>, these: set<Id>, cards: map<Id, Card>,
        target: Status): map<Id, BatchItem> {
    map i | i in items :: if i in these then Settled(items[i], cards, target) else items[i]
  }

  function SucceedOperations(operations: map<Id, Operation>, these: set<Id>): map<Id, Operation> {
    map o | o in operations :: if o in these then operations[o].(status := OpSucceeded) else operations[o]
  }

  // One history row for each moved card, in card order.
  function Moves(rows: seq<LockedRow>, target: Status): seq<HistoryRow> {
    if rows == [] then []
    else
      var r := rows[|rows|-1];
      Moves(rows[..|rows|-1], target) +
      (if r.status != target then [HistoryRow(r.card, r.operation, r.status, target)] else [])
  }

  function AppliedAtOnce(db: Db, batch: Id, target: Status): Db {
    db.(cards := MoveCards(db.cards, CardsOfBatch(db.items, batch), target),
        items := SettleItems(db.items, ItemsOfBatch(db.items, batch), db.cards, target),
        operations := SucceedOperations(db.operations, OperationsOfBatch(db.items, batch)),
        history := db.history + Moves(LockedRows(db, batch), target))
  }

  predicate EveryMoveLegal(db: Db, batch: Id, target: Status) {
    forall i :: i in db.items && db.items[i].batch == batch && db.items[i].card in db.cards ==>
      db.cards[db.items[i].card].status == target || Legal(db.cards[db.items[i].card].status, target)
  }

  function AtomicApplyTx(db: Db, token: BatchToken, now1: Time, now2: Time): Tx {
    if !LeaseHeld(db, token, now1) then Rollback(Stale)
    else if !EveryMoveLegal(db, token.batch, token.target) then Rollback(InvalidTransition)
    else if !LeaseHeld(db, token, now2) then Rollback(Stale)
    else
      var d := AppliedAtOnce(db, token.batch, token.target);
      Commit(d.(batches := db.batches[token.batch := Completed(db.batches[token.batch],
        |WithOutcome(d.items, token.batch, OutcomeApplied)|, |WithOutcome(d.items, token.batch,
            OutcomeIgnored)|)]), Done)
  }

  // What the loop relies on: its rows are distinct, pending, queued and show each card as it stands.
  predicate RowsReady(db: Db, rows: seq<LockedRow>) {
    (forall k :: 0 <= k < |rows| ==> RowReady(db, rows[k])) &&
    (forall j, k :: 0 <= j < k < |rows| ==>
      rows[j].item != rows[k].item && rows[j].card != rows[k].card && rows[j].operation != rows[k].operation)
  }

  predicate RowReady(db: Db, r: LockedRow) {
    r.item in db.items && db.items[r.item].outcome == OutcomePending && db.items[r.item].card == r.card &&
    r.card in db.cards && db.cards[r.card].status == r.status &&
    r.operation in db.operations && db.operations[r.operation].status == OpQueued
  }

  function ItemsIn(rows: seq<LockedRow>): set<Id> {
    if rows == [] then {} else ItemsIn(rows[..|rows|-1]) + {rows[|rows|-1].item}
  }

  function CardsIn(rows: seq<LockedRow>): set<Id> {
    if rows == [] then {} else CardsIn(rows[..|rows|-1]) + {rows[|rows|-1].card}
  }

  function OperationsIn(rows: seq<LockedRow>): set<Id> {
    if rows == [] then {} else OperationsIn(rows[..|rows|-1]) + {rows[|rows|-1].operation}
  }

  lemma {:induction false} InRows(rows: seq<LockedRow>, k: nat)
    requires k < |rows|
    ensures rows[k].item in ItemsIn(rows) && rows[k].card in CardsIn(rows) && rows[k].operation in OperationsIn(rows)
  {
    var n := |rows| - 1;
    if k < n { InRows(rows[..n], k); }
  }

  lemma {:induction false} WhichItem(rows: seq<LockedRow>, x: Id) returns (k: nat)
    requires x in ItemsIn(rows)
    ensures k < |rows| && rows[k].item == x
  {
    k := |rows| - 1;
    if rows[k].item != x { k := WhichItem(rows[..k], x); }
  }

  lemma {:induction false} WhichCard(rows: seq<LockedRow>, x: Id) returns (k: nat)
    requires x in CardsIn(rows)
    ensures k < |rows| && rows[k].card == x
  {
    k := |rows| - 1;
    if rows[k].card != x { k := WhichCard(rows[..k], x); }
  }

  lemma {:induction false} WhichOperation(rows: seq<LockedRow>, x: Id) returns (k: nat)
    requires x in OperationsIn(rows)
    ensures k < |rows| && rows[k].operation == x
  {
    k := |rows| - 1;
    if rows[k].operation != x { k := WhichOperation(rows[..k], x); }
  }

  // The last row of a ready list meets nothing of the rows before it.
  lemma {:induction false} LastIsNew(db: Db, rows: seq<LockedRow>)
    requires RowsReady(db, rows) && rows != []
    ensures var n := |rows| - 1;
      RowsReady(db, rows[..n]) && RowReady(db, rows[n]) &&
      rows[n].item !in ItemsIn(rows[..n]) && rows[n].card !in CardsIn(rows[..n]) &&
      rows[n].operation !in OperationsIn(rows[..n])
  {
    var n := |rows| - 1;
    var p, r := rows[..n], rows[n];
    if r.item in ItemsIn(p) { var k := WhichItem(p, r.item); }
    if r.card in CardsIn(p) { var k := WhichCard(p, r.card); }
    if r.operation in OperationsIn(p) { var k := WhichOperation(p, r.operation); }
  }

  function After(db: Db, rows: seq<LockedRow>, target: Status): Db {
    db.(cards := MoveCards(db.cards, CardsIn(rows), target),
        items := SettleItems(db.items, ItemsIn(rows), db.cards, target),
        operations := SucceedOperations(db.operations, OperationsIn(rows)),
        history := db.history + Moves(rows, target))
  }

  // Weaker than ready: a card may repeat.
  predicate RowsBacked(db: Db, rows: seq<LockedRow>) {
    (forall k :: 0 <= k < |rows| ==> RowReady(db, rows[k])) &&
    (forall j, k :: 0 <= j < k < |rows| ==> rows[j].item != rows[k].item && rows[j].operation != rows[k].operation)
  }

  // No card that has to move is in two rows.
  predicate MovesOnce(rows: seq<LockedRow>, target: Status) {
    forall j, k :: 0 <= j < k < |rows| && rows[j].card == rows[k].card ==> rows[k].status == target
  }

  // Then the loop over any list of rows equals one simultaneous update.
  lemma {:induction false} LoopIsAfter(db: Db, rows: seq<LockedRow>, target: Status)
    requires RowsBacked(db, rows) && MovesOnce(rows, target)
    ensures ApplyRows(db, rows, target) == After(db, rows, target)
  {
    if rows == [] {
      assert MoveCards(db.cards, {}, target) == db.cards;
      assert SettleItems(db.items, {}, db.cards, target) == db.items;
      assert SucceedOperations(db.operations, {}) == db.operations;
      assert db.history + [] == db.history;
    } else {
      var n := |rows| - 1;
      LastFits(db, rows, target);
      LoopIsAfter(db, rows[..n], target);
      LastTurn(db, rows, target);
    }
  }

  lemma {:induction false} LastFits(db: Db, rows: seq<LockedRow>, target: Status)
    requires RowsBacked(db, rows) && MovesOnce(rows, target) && rows != []
    ensures var n := |rows| - 1;
      RowsBacked(db, rows[..n]) && MovesOnce(rows[..n], target) && RowReady(db, rows[n]) &&
      rows[n].item !in ItemsIn(rows[..n]) && rows[n].operation !in OperationsIn(rows[..n]) &&
      (rows[n].card in CardsIn(rows[..n]) ==> rows[n].status == target)
  {
    var n := |rows| - 1;
    var p, r := rows[..n], rows[n];
    if r.item in ItemsIn(p) { var k := WhichItem(p, r.item); }
    if r.card in CardsIn(p) { var k := WhichCard(p, r.card); }
    if r.operation in OperationsIn(p) { var k := WhichOperation(p, r.operation); }
  }

  lemma {:induction false} LastTurn(db: Db, rows: seq<LockedRow>, target: Status)
    requires rows != []
    requires var n := |rows| - 1;
      RowReady(db, rows[n]) && rows[n].item !in ItemsIn(rows[..n]) && rows[n].operation !in OperationsIn(rows[..n]) &&
      (rows[n].card in CardsIn(rows[..n]) ==> rows[n].status == target)
    ensures ApplyRow(After(db, rows[..|rows|-1], target), rows[|rows|-1], target) == After(db, rows, target)
  {
    var p, r := rows[..|rows|-1], rows[|rows|-1];
    var before := After(db, p, target);
    LastCard(db.cards, CardsIn(p), r.card, target);
    LastItem(db.items, ItemsIn(p), r.item, db.cards, target);
    LastOperation(db.operations, OperationsIn(p), r.operation);
    if r.status == target {
      assert db.history + Moves(rows, target) == before.history;
    } else {
      assert db.history + Moves(rows, target) == before.history + [HistoryRow(r.card, r.operation, r.status, target)];
    }
  }

  lemma {:induction false} LastCard(cards: map<Id, Card>, these: set<Id>, c: Id, target: Status)
    requires c in cards && (c in these ==> cards[c].status == target)
    ensures var before := MoveCards(cards, these, target);
      MoveCards(cards, these + {c}, target) ==
        (if cards[c].status == target then before else before[c := Moved(cards[c], target)]) &&
      before[c] == cards[c]
  {
  }

  lemma {:induction false} LastItem(items: map<Id, BatchItem>, these: set<Id>, i: Id, cards: map<Id, Card>,
        target: Status)
    requires i in items && i !in these && items[i].outcome == OutcomePending
    ensures var before := SettleItems(items, these, cards, target);
      SettleItems(items, these + {i}, cards, target) == before[i := Settled(items[i], cards, target)] &&
      before[i] == items[i]
  {
  }

  lemma {:induction false} LastOperation(operations: map<Id, Operation>, these: set<Id>, o: Id)
    requires o in operations && o !in these && operations[o].status == OpQueued
    ensures var before := SucceedOperations(operations, these);
      SucceedOperations(operations, these + {o}) == before[o := operations[o].(status := OpSucceeded)] &&
      before[o] == operations[o]
  {
  }

  // ----- the rows of a batch under the evidence invariants -----

  predicate Ready(db: Db) {
    EvidenceOk(db) && MembershipOk(db.items)
  }

  lemma {:induction false} BatchRowsReady(db: Db, batch: Id)
    requires Ready(db) && batch in db.batches && db.batches[batch].status == Processing
    ensures RowsReady(db, LockedRows(db, batch))
  {
    var rows := LockedRows(db, batch);
    var keys := JoinKeys(db, batch);
    var ids := Ordered(keys);
    forall k | 0 <= k < |rows| ensures RowReady(db, rows[k]) {
      assert ItemOk(db, rows[k].item);
    }
    forall j, k | 0 <= j < k < |rows|
      ensures rows[j].item != rows[k].item && rows[j].card != rows[k].card && rows[j].operation != rows[k].operation
    {
      assert Before(keys, ids[j], ids[k]);
      assert rows[j].item == ids[j] && rows[k].item == ids[k];
    }
  }

  lemma {:induction false} RowOfItem(db: Db, batch: Id, i: Id) returns (k: nat)
    requires EvidenceOk(db) && i in db.items && db.items[i].batch == batch
    ensures db.items[i].card in db.cards
    ensures var rows := LockedRows(db, batch); k < |rows| && rows[k] == RowOf(db, i)
  {
    assert ItemOk(db, i);
    var ids := Ordered(JoinKeys(db, batch));
    assert i in JoinKeys(db, batch);
    assert i in ids;
    k :| 0 <= k < |ids| && ids[k] == i;
  }

  // The locked rows are all of the batch and nothing else.
  lemma {:induction false} RowsCoverBatch(db: Db, batch: Id)
    requires EvidenceOk(db)
    ensures var rows := LockedRows(db, batch);
      ItemsIn(rows) == ItemsOfBatch(db.items, batch) &&
      CardsIn(rows) == CardsOfBatch(db.items, batch) &&
      OperationsIn(rows) == OperationsOfBatch(db.items, batch)
  {
    var rows := LockedRows(db, batch);
    forall i | i in ItemsOfBatch(db.items, batch)
      ensures i in ItemsIn(rows) && db.items[i].card in CardsIn(rows) && db.items[i].operation in OperationsIn(rows)
    {
      var k := RowOfItem(db, batch, i);
      InRows(rows, k);
    }
    forall x | x in ItemsIn(rows) ensures x in ItemsOfBatch(db.items, batch) { var k := WhichItem(rows, x); }
    forall x | x in CardsIn(rows) ensures x in CardsOfBatch(db.items, batch) { var k := WhichCard(rows, x); }
    forall x | x in OperationsIn(rows) ensures x in OperationsOfBatch(db.items, batch) { var k := WhichOperation(rows,
        x); }
  }

  function Among(items: map<Id, BatchItem>, these: set<Id>, outcome: Outcome): set<Id> {
    set i | i in these && i in items && items[i].outcome == outcome
  }

  // Each ready row becomes exactly one applied or one ignored item.
  lemma {:induction false} CountersAreTallies(db: Db, rows: seq<LockedRow>, target: Status)
    requires RowsReady(db, rows)
    ensures var t := SettleItems(db.items, ItemsIn(rows), db.cards, target);
      AppliedAmong(rows, target) == |Among(t, ItemsIn(rows), OutcomeApplied)| &&
      |rows| - AppliedAmong(rows, target) == |Among(t, ItemsIn(rows), OutcomeIgnored)|
  {
    var t := SettleItems(db.items, ItemsIn(rows), db.cards, target);
    if rows == [] {
      assert Among(t, {}, OutcomeApplied) == {} && Among(t, {}, OutcomeIgnored) == {};
    } else {
      var n := |rows| - 1;
      var p, r := rows[..n], rows[n];
      LastIsNew(db, rows);
      CountersAreTallies(db, p, target);
      OneMore(db, ItemsIn(p), r, target, OutcomeApplied);
      OneMore(db, ItemsIn(p), r, target, OutcomeIgnored);
    }
  }

  lemma {:induction false} OneMore(db: Db, these: set<Id>, r: LockedRow, target: Status, outcome: Outcome)
    requires RowReady(db, r) && r.item !in these && outcome != OutcomePending
    ensures var t := SettleItems(db.items, these, db.cards, target);
      var u := SettleItems(db.items, these + {r.item}, db.cards, target);
      |Among(u, these + {r.item}, outcome)| == |Among(t, these, outcome)| +
        (if Settled(db.items[r.item], db.cards, target).outcome == outcome then 1 else 0)
  {
    var t := SettleItems(db.items, these, db.cards, target);
    var u := SettleItems(db.items, these + {r.item}, db.cards, target);
    var a, b := Among(t, these, outcome), Among(u, these + {r.item}, outcome);
    if Settled(db.items[r.item], db.cards, target).outcome == outcome {
      assert b == a + {r.item};
    } else {
      assert b == a;
    }
  }

  lemma {:induction false} AmongIsWithOutcome(items: map<Id, BatchItem>, cards: map<Id, Card>, batch: Id,
        target: Status, outcome: Outcome)
    ensures var t := SettleItems(items, ItemsOfBatch(items, batch), cards, target);
      WithOutcome(t, batch, outcome) == Among(t, ItemsOfBatch(items, batch), outcome)
  {
  }

  lemma {:induction false} TalliesOfBatch(db: Db, batch: Id, target: Status)
    requires EvidenceOk(db) && RowsReady(db, LockedRows(db, batch))
    ensures var rows := LockedRows(db, batch);
      var t := SettleItems(db.items, ItemsOfBatch(db.items, batch), db.cards, target);
      AppliedAmong(rows, target) == |WithOutcome(t, batch, OutcomeApplied)| &&
      |rows| - AppliedAmong(rows, target) == |WithOutcome(t, batch, OutcomeIgnored)| &&
      |rows| == |ItemsOfBatch(db.items, batch)|
  {
    var rows := LockedRows(db, batch);
    RowsCoverBatch(db, batch);
    CountersAreTallies(db, rows, target);
    AmongIsWithOutcome(db.items, db.cards, batch, target, OutcomeApplied);
    AmongIsWithOutcome(db.items, db.cards, batch, target, OutcomeIgnored);
    JoinIsBatch(db, batch);
  }

  lemma {:induction false} JoinIsBatch(db: Db, batch: Id)
    requires EvidenceOk(db)
    ensures JoinKeys(db, batch).Keys == ItemsOfBatch(db.items, batch)
  {
    forall i | i in db.items ensures db.items[i].card in db.cards { assert ItemOk(db, i); }
  }

  lemma {:induction false} LegalityOfRows(db: Db, batch: Id, target: Status)
    requires EvidenceOk(db)
    ensures AllLegal(LockedRows(db, batch), target) <==> EveryMoveLegal(db, batch, target)
  {
    var rows := LockedRows(db, batch);
    forall s: Status ensures CanTransition(s, target).valid <==> Legal(s, target) || s == target {
      CanTransitionIsTheGraph(s, target);
    }
    if AllLegal(rows, target) {
      forall i | i in db.items && db.items[i].batch == batch && db.items[i].card in db.cards
        ensures db.cards[db.items[i].card].status == target || Legal(db.cards[db.items[i].card].status, target)
      {
        var k := RowOfItem(db, batch, i);
      }
    }
  }

  lemma {:induction false} ReadyMovesOnce(db: Db, rows: seq<LockedRow>, target: Status)
    requires RowsReady(db, rows)
    ensures RowsBacked(db, rows) && MovesOnce(rows, target)
  {
  }

  // The refinement: all or nothing, whatever the order of the rows.
  lemma {:induction false} ApplyBatchIsAtomic(db: Db, token: BatchToken, now1: Time, now2: Time)
    requires Ready(db)
    ensures ApplyBatchTx(db, token, now1, now2) == AtomicApplyTx(db, token, now1, now2)
  {
    if LeaseHeld(db, token, now1) {
      LegalityOfRows(db, token.batch, token.target);
      BatchRowsReady(db, token.batch);
      RowsCoverBatch(db, token.batch);
      ReadyMovesOnce(db, LockedRows(db, token.batch), token.target);
      LoopIsAfter(db, LockedRows(db, token.batch), token.target);
      TalliesOfBatch(db, token.batch, token.target);
    }
  }

  // ----- distinct cards are needed -----

  // How many rows of the loop move a card.
  function MovesOf(rows: seq<LockedRow>, card: Id, target: Status): nat {
    if rows == [] then 0
    else
      var r := rows[|rows|-1];
      MovesOf(rows[..|rows|-1], card, target) + (if r.card == card && r.status != target then 1 else 0)
  }

  lemma {:induction false} LoopBumpsEachTime(db: Db, rows: seq<LockedRow>, target: Status, card: Id)
    requires card in db.cards
    ensures var cards := ApplyRows(db, rows, target).cards;
      card in cards && cards[card].version == db.cards[card].version + MovesOf(rows, card, target)
  {
    if rows != [] { LoopBumpsEachTime(db, rows[..|rows|-1], target, card); }
  }

  lemma {:induction false} TwoRowsMoveTwice(rows: seq<LockedRow>, target: Status, j: nat, k: nat)
    requires j < k < |rows| && rows[j].card == rows[k].card && rows[j].status != target && rows[k].status != target
    ensures MovesOf(rows, rows[k].card, target) >= 2
  {
    var n := |rows| - 1;
    if k < n { TwoRowsMoveTwice(rows[..n], target, j, k); } else { OneRowMovesOnce(rows[..n], target, j); }
  }

  lemma {:induction false} OneRowMovesOnce(rows: seq<LockedRow>, target: Status, j: nat)
    requires j < |rows| && rows[j].status != target
    ensures MovesOf(rows, rows[j].card, target) >= 1
  {
    var n := |rows| - 1;
    if j < n { OneRowMovesOnce(rows[..n], target, j); }
  }

  // The loop bumps a card's version once for each row that moves it, so a card that has to move and is
  // in two rows is bumped at least twice.
  lemma {:induction false} RepeatedCardsAreBumpedAgain(db: Db, rows: seq<LockedRow>, target: Status, j: nat, k: nat)
    requires RowsBacked(db, rows) && j < k < |rows| && rows[j].card == rows[k].card && rows[k].status != target
    ensures var c := rows[k].card;
      c in db.cards && c in ApplyRows(db, rows, target).cards && MovesOf(rows, c, target) >= 2 &&
      ApplyRows(db, rows, target).cards[c].version == db.cards[c].version + MovesOf(rows, c, target)
  {
    hide ApplyRows, MovesOf;
    assert RowReady(db, rows[j]) && RowReady(db, rows[k]);
    LoopBumpsEachTime(db, rows, target, rows[k].card);
    TwoRowsMoveTwice(rows, target, j, k);
  }

  // The loop is the simultaneous update exactly when no card that has to move is in two rows.
  lemma {:induction false} LoopIsAtomicExactlyWhen(db: Db, rows: seq<LockedRow>, target: Status)
    requires RowsBacked(db, rows)
    ensures ApplyRows(db, rows, target) == After(db, rows, target) <==> MovesOnce(rows, target)
  {
    if MovesOnce(rows, target) {
      LoopIsAfter(db, rows, target);
    } else {
      var j, k :| 0 <= j < k < |rows| && rows[j].card == rows[k].card && rows[k].status != target;
      RepeatedCardsAreBumpedAgain(db, rows, target, j, k);
    }
  }

  predicate OperationsDistinct(items: map<Id, BatchItem>) {
    forall i, j :: i in items && j in items && i != j ==> items[i].operation != items[j].operation
  }

  // Every card that is in two items of the batch is at the target already.
  predicate RepeatsStandStill(db: Db, batch: Id, target: Status) {
    forall i, j :: i in ItemsOfBatch(db.items, batch) && j in ItemsOfBatch(db.items, batch) && i != j ==>
      db.items[i].card == db.items[j].card ==>
      db.items[j].card in db.cards && db.cards[db.items[j].card].status == target
  }

  lemma {:induction false} RepeatIsAtTarget(db: Db, batch: Id, target: Status, i: Id, j: Id)
    requires EvidenceOk(db) && MovesOnce(LockedRows(db, batch), target)
    requires i in ItemsOfBatch(db.items, batch) && j in ItemsOfBatch(db.items, batch) && i != j
    requires db.items[i].card == db.items[j].card
    ensures db.items[j].card in db.cards && db.cards[db.items[j].card].status == target
  {
    hide EvidenceOk, LockedRows, JoinKeys, MovesOnce;
    var rows := LockedRows(db, batch);
    var a := RowOfItem(db, batch, i);
    var b := RowOfItem(db, batch, j);
    OnceForRows(rows, target, if a < b then a else b, if a < b then b else a);
  }

  lemma {:induction false} OnceForRows(rows: seq<LockedRow>, target: Status, j: nat, k: nat)
    requires MovesOnce(rows, target) && j < k < |rows| && rows[j].card == rows[k].card
    ensures rows[k].status == target
  {
  }

  lemma {:induction false} StandingStillMovesOnce(db: Db, batch: Id, target: Status)
    requires RowsBacked(db, LockedRows(db, batch)) && RepeatsStandStill(db, batch, target)
    ensures MovesOnce(LockedRows(db, batch), target)
  {
  }

  // On the tables: the loop of a processing batch is atomic exactly when no card off the target is in
  // two of its items. That no card is in two items at all is what drafting guarantees.
  lemma {:induction false} BatchIsAtomicExactlyWhen(db: Db, batch: Id, target: Status)
    requires EvidenceOk(db) && OperationsDistinct(db.items)
    requires batch in db.batches && db.batches[batch].status == Processing
    ensures var rows := LockedRows(db, batch);
      ApplyRows(db, rows, target) == After(db, rows, target) <==> RepeatsStandStill(db, batch, target)
  {
    hide ApplyRows, After, RowsFor, EvidenceOk, OperationsDistinct, LockedRows, MovesOnce, RowsBacked;
    LockedRowsAreBacked(db, batch);
    LoopIsAtomicExactlyWhen(db, LockedRows(db, batch), target);
    if RepeatsStandStill(db, batch, target) { StandingStillMovesOnce(db, batch, target); }
    if MovesOnce(LockedRows(db, batch), target) {
      forall i, j | i in ItemsOfBatch(db.items, batch) && j in ItemsOfBatch(db.items, batch) && i != j
        ensures db.items[i].card == db.items[j].card ==>
          db.items[j].card in db.cards && db.cards[db.items[j].card].status == target
      {
        if db.items[i].card == db.items[j].card { RepeatIsAtTarget(db, batch, target, i, j); }
      }
    }
  }

  lemma {:induction false} LockedRowsAreBacked(db: Db, batch: Id)
    requires EvidenceOk(db) && OperationsDistinct(db.items)
    requires batch in db.batches && db.batches[batch].status == Processing
    ensures RowsBacked(db, LockedRows(db, batch))
  {
    var rows := LockedRows(db, batch);
    var keys := JoinKeys(db, batch);
    var ids := Ordered(keys);
    forall k | 0 <= k < |rows| ensures RowReady(db, rows[k]) {
      assert ItemOk(db, rows[k].item);
    }
    forall j, k | 0 <= j < k < |rows|
      ensures rows[j].item != rows[k].item && rows[j].operation != rows[k].operation
    {
      assert Before(keys, ids[j], ids[k]);
      assert rows[j].item == ids[j] && rows[k].item == ids[k];
    }
  }
}
