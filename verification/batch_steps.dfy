// Batch transactions keep the invariant.
module BatchSteps {
  import opened Wrappers
  import opened RowOrder
  import opened Lifecycle
  import opened Tables
  import opened DraftRequest
  import opened BatchTransactions
  import opened CardLedger
  import opened Evidence
  import opened ReplacementForest
  import opened RetryLineage
  import opened BatchRefinement
  import opened ShardInvariant

  // ----- steps that only move open batches -----

  predicate OpenMove(row: Batch, row': Batch) {
    OpenStatus(row.status) && OpenStatus(row'.status) &&
    (row'.lease.Some? <==> row'.status == Processing) &&
    row'.appliedCount == row.appliedCount && row'.ignoredCount == row.ignoredCount
  }

  predicate OpenMoves(batches: map<Id, Batch>, batches': map<Id, Batch>) {
    SameRequests(batches, batches') &&
    forall b :: b in batches ==> batches'[b] == batches[b] || OpenMove(batches[b], batches'[b])
  }

  lemma {:induction false} OpenMovesKeepInv(db: Db, batches': map<Id, Batch>)
    requires Inv(db) && OpenMoves(db.batches, batches')
    ensures Inv(db.(batches := batches'))
  {
    var d := db.(batches := batches');
    EvidenceFrame(db, d);
    ExpiryFrame(db, d);
    UpdatesKeepLineage(db.batches, db.items, batches', db.items);
    OpenMovesKeepBatches(db.batches, db.items, batches');
  }

  lemma {:induction false} OpenMovesKeepBatches(batches: map<Id, Batch>, items: map<Id, BatchItem>, batches': map<Id,
        Batch>)
    requires BatchesOk(batches, items) && OpenMoves(batches, batches')
    ensures BatchesOk(batches', items)
  {
    forall b | b in batches' ensures BatchOk(b, batches'[b], items) {
      assert BatchOk(b, batches[b], items);
    }
  }

  lemma {:induction false} OneOpenMove(db: Db, id: Id, row': Batch)
    requires Inv(db) && id in db.batches && OpenMove(db.batches[id], row')
    requires var row := db.batches[id];
      row'.target == row.target && row'.reason == row.reason && row'.itemCount == row.itemCount &&
      row'.retryOf == row.retryOf
    ensures Inv(db.(batches := db.batches[id := row']))
  {
    hide Inv;
    OpenMovesKeepInv(db, db.batches[id := row']);
  }

  lemma {:induction false} ExecuteKeepsInv(db: Db, id: Id, now: Time)
    requires Inv(db)
    ensures var t := ExecuteBatchTx(db, id, now); t.Commit? ==> Inv(t.db)
  {
    var t := ExecuteBatchTx(db, id, now);
    if t.Commit? && t.db != db {
      assert BatchOk(id, db.batches[id], db.items);
      hide Inv;
      OneOpenMove(db, id, db.batches[id].(status := Queued, nextAttemptAt := now));
    }
  }

  lemma {:induction false} CancelKeepsInv(db: Db, id: Id)
    requires Inv(db)
    ensures var t := CancelBatchTx(db, id); t.Commit? ==> Inv(t.db)
  {
    var t := CancelBatchTx(db, id);
    if t.Commit? {
      assert BatchOk(id, db.batches[id], db.items);
      hide Inv;
      OneOpenMove(db, id, db.batches[id].(status := Cancelled));
    }
  }

  lemma {:induction false} ClaimKeepsInv(db: Db, owner: Owner, duration: nat, skipped: set<Id>, now1: Time, now2: Time)
    requires Inv(db)
    ensures Inv(ClaimBatchTx(db, owner, duration, skipped, now1, now2).db)
  {
    hide Inv;
    var due := DueBatches(db, skipped, now1);
    if due.Keys != {} {
      var b := Least(due);
      OneOpenMove(db, b, Claimed(db.batches[b], owner, now2 + duration));
    }
  }

  lemma {:induction false} RecoverKeepsInv(db: Db, skipped: set<Id>, now1: Time, now2: Time)
    requires Inv(db)
    ensures Inv(RecoverBatchesTx(db, skipped, now1, now2).db)
  {
    hide Inv;
    OpenMovesKeepInv(db, RecoverBatchesTx(db, skipped, now1, now2).db.batches);
  }

  lemma {:induction false} RequeueKeepsInv(db: Db, token: BatchToken, code: Code, delay: nat, now: Time)
    requires Inv(db)
    ensures var t := RequeueBatchTx(db, token, code, delay, now); t.Commit? ==> Inv(t.db)
  {
    hide Inv;
    if LeaseHeld(db, token, now) {
      OneOpenMove(db, token.batch, Requeued(db.batches[token.batch], SafeBatchCode(code), now + delay));
    }
  }

  // ----- drafting -----

  // A draft under construction: its count follows its items and it is nobody's retry source.
  predicate Growing(db: Db, batch: Id) {
    batch in db.batches && db.batches[batch].status == Draft && db.batches[batch].retryOf.None? &&
    forall b :: b in db.batches ==> db.batches[b].retryOf != Some(batch)
  }

  function Counted(db: Db, batch: Id, count: nat): Db
    requires batch in db.batches
  {
    db.(batches := db.batches[batch := db.batches[batch].(itemCount := count)])
  }

  function Grown(db: Db, batch: Id, card: Id, operation: Id, item: Id): Db
    requires batch in db.batches
  {
    Counted(db, batch, db.batches[batch].itemCount + 1).(
      operations := db.operations[operation := Operation(card, BatchOperationAction(db.batches[batch].target),
          OpQueued)],
      items := db.items[item := BatchItem(batch, card, operation, OutcomePending, None, None)])
  }

  predicate MayGrow(db: Db, batch: Id, card: Id, operation: Id, item: Id) {
    Growing(db, batch) && operation !in db.operations && item !in db.items && card in db.cards &&
    card !in CardsOfBatch(db.items, batch)
  }

  lemma {:induction false} GrowKeepsEvidence(db: Db, batch: Id, card: Id, operation: Id, item: Id)
    requires MayGrow(db, batch, card, operation, item)
    requires EvidenceOk(db) && HistoryOwned(db.operations, db.history)
    ensures EvidenceOk(Grown(db, batch, card, operation, item))
  {
    var d := Grown(db, batch, card, operation, item);
    NoRowsYet(db.operations, db.history, operation);
    forall i | i in d.items ensures ItemOk(d, i) {
      if i != item { assert ItemOk(db, i); }
    }
  }

  lemma {:induction false} NewItemTallies(items: map<Id, BatchItem>, id: Id, item: BatchItem, b: Id)
    requires id !in items && item.outcome == OutcomePending
    ensures var items' := items[id := item];
      ItemsOfBatch(items', b) == ItemsOfBatch(items, b) + (if b == item.batch then {id} else {}) &&
      WithOutcome(items', b, OutcomeApplied) == WithOutcome(items, b, OutcomeApplied) &&
      WithOutcome(items', b, OutcomeIgnored) == WithOutcome(items, b, OutcomeIgnored)
  {
  }

  lemma {:induction false} GrowKeepsBatches(db: Db, batch: Id, card: Id, operation: Id, item: Id)
    requires MayGrow(db, batch, card, operation, item)
    requires BatchesOk(db.batches, db.items)
    ensures var d := Grown(db, batch, card, operation, item); BatchesOk(d.batches, d.items)
  {
    var d := Grown(db, batch, card, operation, item);
    forall b | b in d.batches ensures BatchOk(b, d.batches[b], d.items) {
      assert BatchOk(b, db.batches[b], db.items);
      NewItemTallies(db.items, item, BatchItem(batch, card, operation, OutcomePending, None, None), b);
    }
  }

  lemma {:induction false} GrowKeepsLineage(db: Db, batch: Id, card: Id, operation: Id, item: Id)
    requires MayGrow(db, batch, card, operation, item)
    requires LineageOk(db.batches, db.items)
    ensures var d := Grown(db, batch, card, operation, item); LineageOk(d.batches, d.items)
  {
    var d := Grown(db, batch, card, operation, item);
    forall b | b in d.batches && d.batches[b].retryOf.Some?
      ensures SameWork(d.batches, d.items, b, d.batches[b].retryOf.value)
    {
      var s := d.batches[b].retryOf.value;
      assert SameWork(db.batches, db.items, b, s);
      SameOutside(db.items, d.items, batch, b);
      SameOutside(db.items, d.items, batch, s);
    }
  }

  lemma {:induction false} SameOutside(items: map<Id, BatchItem>, items': map<Id, BatchItem>, batch: Id, b: Id)
    requires b != batch
    requires forall i :: i in items ==> i in items' && items'[i] == items[i]
    requires forall i :: i in items' && i !in items ==> items'[i].batch == batch
    ensures CardsOfBatch(items', b) == CardsOfBatch(items, b)
  {
    forall i | i in items' && items'[i].batch == b ensures items'[i].card in CardsOfBatch(items, b) {
      assert i in items;
    }
    forall i | i in items && items[i].batch == b ensures items[i].card in CardsOfBatch(items', b) {
      assert i in items';
    }
  }

  lemma {:induction false} GrowKeepsMembership(db: Db, batch: Id, card: Id, operation: Id, item: Id)
    requires MayGrow(db, batch, card, operation, item) && Unused(db, operation)
    requires MembershipOk(db.items)
    ensures MembershipOk(Grown(db, batch, card, operation, item).items)
  {
    forall i | i in db.items && db.items[i].batch == batch ensures db.items[i].card != card {
      assert db.items[i].card in CardsOfBatch(db.items, batch);
    }
  }

  lemma {:induction false} GrowKeepsOthers(db: Db, batch: Id, card: Id, operation: Id, item: Id)
    requires CardsInv(db) && ExpiryInv(db) && MayGrow(db, batch, card, operation, item)
    ensures var d := Grown(db, batch, card, operation, item); CardsInv(d) && ExpiryInv(d)
  {
    var d := Grown(db, batch, card, operation, item);
    hide LedgerOk, ForestOk, ScheduleOk;
    forall e | e in db.expiryItems ensures db.expiryItems[e].operation != operation { assert ExpiryItemOk(db, e); }
    ExpiryFrame(db, d);
  }

  lemma {:induction false} GrowKeepsInv(db: Db, batch: Id, card: Id, operation: Id, item: Id)
    requires Inv(db) && MayGrow(db, batch, card, operation, item)
    ensures Inv(Grown(db, batch, card, operation, item))
  {
    var d := Grown(db, batch, card, operation, item);
    FreshIsUnused(db, operation);
    GrowKeepsEvidence(db, batch, card, operation, item);
    GrowKeepsMembership(db, batch, card, operation, item);
    GrowKeepsBatches(db, batch, card, operation, item);
    GrowKeepsLineage(db, batch, card, operation, item);
    GrowKeepsOthers(db, batch, card, operation, item);
    hide EvidenceOk, BatchesOk, LineageOk, MembershipOk, CardsInv, ExpiryInv, Grown;
  }

  // InsertItems never looks at the batches table.
  lemma {:induction false} InsertItemsIgnoresBatches(db: Db, batches': map<Id, Batch>, batch: Id, action: Action,
                                                    cards: seq<Id>, operations: seq<Id>, itemIds: seq<Id>)
    requires |cards| == |operations| == |itemIds|
    ensures var t := InsertItems(db, batch, action, cards, operations, itemIds);
      InsertItems(db.(batches := batches'), batch, action, cards, operations, itemIds) ==
        (if t.Commit? then Commit(t.db.(batches := batches'), t.reply) else t) &&
      (t.Commit? ==> t.db.batches == db.batches && t.db.cards == db.cards)
  {
    if cards != [] {
      var n := |cards| - 1;
      InsertItemsIgnoresBatches(db, batches', batch, action, cards[..n], operations[..n], itemIds[..n]);
    }
  }

  function CardSet(cards: seq<Id>): set<Id> {
    set k | 0 <= k < |cards| :: cards[k]
  }

  // The state after the cards so far: their rows are in, and nothing else has moved.
  predicate Built(db: Db, d: Db, batch: Id, cards: seq<Id>) {
    batch in db.batches && d.batches == db.batches && d.cards == db.cards &&
    CardsOfBatch(d.items, batch) == CardSet(cards)
  }

  predicate EmptyDraft(db: Db, batch: Id) {
    Growing(db, batch) && db.batches[batch].itemCount == 0 && CardsOfBatch(db.items, batch) == {}
  }

  lemma {:induction false} DraftTurn(db: Db, d: Db, batch: Id, cards: seq<Id>, operation: Id, item: Id)
    requires EmptyDraft(db, batch) && cards != [] && Distinct(cards)
    requires cards[|cards|-1] in db.cards && Built(db, d, batch, cards[..|cards|-1])
    ensures var n := |cards| - 1;
      var t := InsertItem(d, batch, BatchOperationAction(db.batches[batch].target), cards[n], operation, item);
      t.Commit? ==> (
        Built(db, t.db, batch, cards) && MayGrow(Counted(d, batch, n), batch, cards[n], operation, item) &&
        Grown(Counted(d, batch, n), batch, cards[n], operation, item) == Counted(t.db, batch, n + 1))
  {
    var n := |cards| - 1;
    var t := InsertItem(d, batch, BatchOperationAction(db.batches[batch].target), cards[n], operation, item);
    if t.Commit? {
      assert cards[n] !in CardSet(cards[..n]);
      LastOfSet(cards);
      NewCard(d.items, item, BatchItem(batch, cards[n], operation, OutcomePending, None, None));
    }
  }

  lemma {:induction false} LastOfSet(cards: seq<Id>)
    requires cards != []
    ensures CardSet(cards) == CardSet(cards[..|cards|-1]) + {cards[|cards|-1]}
  {
    var p := cards[..|cards|-1];
    forall k | 0 <= k < |cards| ensures cards[k] in CardSet(p) + {cards[|cards|-1]} {
      if k < |p| { assert p[k] == cards[k]; }
    }
    forall k | 0 <= k < |p| ensures p[k] in CardSet(cards) { assert p[k] == cards[k]; }
  }

  // The rows of a new draft, inserted one by one.
  lemma {:induction false} DraftGrows(db: Db, batch: Id, cards: seq<Id>, operations: seq<Id>, itemIds: seq<Id>)
    requires |cards| == |operations| == |itemIds|
    requires Inv(db) && EmptyDraft(db, batch)
    requires Distinct(cards) && forall k :: 0 <= k < |cards| ==> cards[k] in db.cards
    ensures var t := InsertItems(db, batch, BatchOperationAction(db.batches[batch].target), cards, operations, itemIds);
      t.Commit? ==> Built(db, t.db, batch, cards) && Inv(Counted(t.db, batch, |cards|))
  {
    var action := BatchOperationAction(db.batches[batch].target);
    var t := InsertItems(db, batch, action, cards, operations, itemIds);
    if cards == [] {
      assert db.batches[batch := db.batches[batch].(itemCount := 0)] == db.batches;
      assert Counted(db, batch, 0) == db;
    } else if t.Commit? {
      var n := |cards| - 1;
      DraftGrows(db, batch, cards[..n], operations[..n], itemIds[..n]);
      var before := InsertItems(db, batch, action, cards[..n], operations[..n], itemIds[..n]);
      DraftTurn(db, before.db, batch, cards, operations[n], itemIds[n]);
      GrowKeepsInv(Counted(before.db, batch, n), batch, cards[n], operations[n], itemIds[n]);
    }
  }

  lemma {:induction false} NewCard(items: map<Id, BatchItem>, id: Id, item: BatchItem)
    requires id !in items
    ensures CardsOfBatch(items[id := item], item.batch) == CardsOfBatch(items, item.batch) + {item.card}
  {
    var items' := items[id := item];
    assert items'[id] == item;
    forall i | i in items && items[i].batch == item.batch ensures items[i].card in CardsOfBatch(items', item.batch) {
      assert items'[i] == items[i];
    }
  }

  predicate EmptyRow(row: Batch) {
    DraftRow(row) && row.itemCount == 0 && row.retryOf.None?
  }

  lemma {:induction false} EmptyDraftKeepsLineage(db: Db, batch: Id, row: Batch)
    requires LineageOk(db.batches, db.items) && batch !in db.batches && EmptyRow(row)
    ensures LineageOk(db.batches[batch := row], db.items)
    ensures forall b :: b in db.batches ==> db.batches[b].retryOf != Some(batch)
  {
    var batches' := db.batches[batch := row];
    forall b | b in db.batches && db.batches[b].retryOf.Some?
      ensures db.batches[b].retryOf != Some(batch) && SameWork(batches', db.items, b, db.batches[b].retryOf.value)
    {
      assert SameWork(db.batches, db.items, b, db.batches[b].retryOf.value);
    }
  }

  lemma {:induction false} EmptyDraftKeepsBatches(db: Db, batch: Id, row: Batch)
    requires BatchesOk(db.batches, db.items) && EmptyRow(row) && ItemsOfBatch(db.items, batch) == {}
    ensures BatchesOk(db.batches[batch := row], db.items)
  {
    var batches' := db.batches[batch := row];
    forall b | b in batches' ensures BatchOk(b, batches'[b], db.items) {
      if b != batch { assert BatchOk(b, db.batches[b], db.items); }
    }
  }

  // A batch inserted with no items yet.
  lemma {:induction false} EmptyDraftKeepsInv(db: Db, batch: Id, row: Batch)
    requires Inv(db) && batch !in db.batches && EmptyRow(row)
    ensures var d := db.(batches := db.batches[batch := row]);
      Inv(d) && Growing(d, batch) && CardsOfBatch(d.items, batch) == {}
  {
    hide BatchesOk, LineageOk, EvidenceOk, ExpiryEvidenceOk, RowsFor;
    var d := db.(batches := db.batches[batch := row]);
    NoItemsYet(db, batch);
    EmptyDraftKeepsLineage(db, batch, row);
    EmptyDraftKeepsBatches(db, batch, row);
    EvidenceFrame(db, d);
    ExpiryFrame(db, d);
  }

  lemma {:induction false} NoItemsYet(db: Db, batch: Id)
    requires EvidenceOk(db) && batch !in db.batches
    ensures ItemsOfBatch(db.items, batch) == {} && CardsOfBatch(db.items, batch) == {}
    ensures forall i :: i in db.items ==> db.items[i].batch != batch
  {
    forall i | i in db.items ensures db.items[i].batch != batch { assert ItemOk(db, i); }
  }

  predicate SourceMatches(db: Db, row: Batch, cards: seq<Id>) {
    row.retryOf.Some? ==>
      var s := row.retryOf.value;
      s in db.batches && db.batches[s].target == row.target && db.batches[s].reason == row.reason &&
      db.batches[s].itemCount == row.itemCount && CardsOfBatch(db.items, s) == CardSet(cards)
  }

  predicate DraftRow(row: Batch) {
    row.status == Draft && row.target in {Active, Suspended, Closed} && row.lease.None? &&
    row.appliedCount == 0 && row.ignoredCount == 0
  }

  // The table change of a whole insertion, relative to an empty draft of the same work.
  lemma {:induction false} InsertionFromSeed(db: Db, batch: Id, row: Batch, cards: seq<Id>, operations: seq<Id>,
        itemIds: seq<Id>)
    requires batch !in db.batches && |cards| == |operations| == |itemIds| && row.itemCount == |cards|
    ensures var t := InsertBatch(db, batch, row, cards, operations, itemIds);
      var u := InsertItems(Seeded(db, batch, row), batch, BatchOperationAction(row.target), cards, operations, itemIds);
      t.Commit? ==> (
        u.Commit? && u.db.batches == Seeded(db, batch, row).batches &&
        t.db == (var c := Counted(u.db, batch, |cards|); c.(batches := c.batches[batch := row])))
  {
    var base := db.(batches := db.batches[batch := row.(itemCount := 0, retryOf := None)]);
    var started := db.(batches := db.batches[batch := row]);
    assert base == started.(batches := base.batches);
    InsertItemsIgnoresBatches(started, base.batches, batch, BatchOperationAction(row.target), cards, operations,
        itemIds);
    InsertItemsIgnoresBatches(base, base.batches, batch, BatchOperationAction(row.target), cards, operations, itemIds);
    assert base.batches[batch := base.batches[batch].(itemCount := |cards|)][batch := row] == db.batches[batch := row];
  }

  // The finished draft is ready for its retry link.
  lemma {:induction false} LinkReady(db: Db, base: Db, u: Db, batch: Id, row: Batch, cards: seq<Id>)
    requires base == db.(batches := db.batches[batch := row.(itemCount := 0, retryOf := None)])
    requires Growing(base, batch) && Built(base, u, batch, cards) && row.itemCount == |cards| && OpenStatus(row.status)
    requires SourceMatches(db, row, cards) && batch !in db.batches
    requires row.retryOf.Some? ==> CardsOfBatch(u.items, row.retryOf.value) == CardsOfBatch(db.items, row.retryOf.value)
    ensures Linkable(Counted(u, batch, |cards|), batch, row, cards)
  {
  }

  function Seeded(db: Db, batch: Id, row: Batch): Db {
    db.(batches := db.batches[batch := row.(itemCount := 0, retryOf := None)])
  }

  lemma {:induction false} SeedGrows(db: Db, batch: Id, row: Batch, cards: seq<Id>, operations: seq<Id>,
        itemIds: seq<Id>)
    requires Inv(db) && DraftRow(row) && batch !in db.batches
    requires |cards| == |operations| == |itemIds|
    requires Distinct(cards) && forall k :: 0 <= k < |cards| ==> cards[k] in db.cards
    ensures var base := Seeded(db, batch, row);
      var u := InsertItems(base, batch, BatchOperationAction(row.target), cards, operations, itemIds);
      Growing(base, batch) && (u.Commit? ==> Built(base, u.db, batch, cards) && Inv(Counted(u.db, batch, |cards|)))
  {
    EmptyDraftKeepsInv(db, batch, row.(itemCount := 0, retryOf := None));
    DraftGrows(Seeded(db, batch, row), batch, cards, operations, itemIds);
  }

  lemma {:induction false} SeedLinks(db: Db, batch: Id, row: Batch, cards: seq<Id>, operations: seq<Id>,
        itemIds: seq<Id>)
    requires batch !in db.batches && |cards| == |operations| == |itemIds| && row.itemCount == |cards|
    requires OpenStatus(row.status) && SourceMatches(db, row, cards) && Growing(Seeded(db, batch, row), batch)
    ensures var u := InsertItems(Seeded(db, batch, row), batch, BatchOperationAction(row.target), cards, operations,
        itemIds);
      u.Commit? && Built(Seeded(db, batch, row), u.db, batch, cards) ==> Linkable(Counted(u.db, batch, |cards|), batch,
          row, cards)
  {
    var base := Seeded(db, batch, row);
    var u := InsertItems(base, batch, BatchOperationAction(row.target), cards, operations, itemIds);
    if u.Commit? && Built(base, u.db, batch, cards) {
      if row.retryOf.Some? {
        SourceUntouched(db, base, batch, row.(itemCount := 0, retryOf := None), cards, operations, itemIds,
            row.retryOf.value);
      }
      LinkReady(db, base, u.db, batch, row, cards);
    }
  }

  lemma {:induction false} InsertBatchKeepsInv(db: Db, batch: Id, row: Batch, cards: seq<Id>, operations: seq<Id>,
        itemIds: seq<Id>)
    requires Inv(db) && DraftRow(row) && row.itemCount == |cards|
    requires Distinct(cards) && forall k :: 0 <= k < |cards| ==> cards[k] in db.cards
    requires SourceMatches(db, row, cards)
    ensures var t := InsertBatch(db, batch, row, cards, operations, itemIds); t.Commit? ==> Inv(t.db)
  {
    var t := InsertBatch(db, batch, row, cards, operations, itemIds);
    if t.Commit? {
      InsertionFromSeed(db, batch, row, cards, operations, itemIds);
      SeedGrows(db, batch, row, cards, operations, itemIds);
      SeedLinks(db, batch, row, cards, operations, itemIds);
      var u := InsertItems(Seeded(db, batch, row), batch, BatchOperationAction(row.target), cards, operations,
          itemIds).db;
      LinkKeepsInv(Counted(u, batch, |cards|), batch, row, cards);
    }
  }

  // Inserting items into one batch leaves the other batches' cards alone.
  lemma {:induction false} SourceUntouched(db: Db, base: Db, batch: Id, seed: Batch, cards: seq<Id>,
        operations: seq<Id>, itemIds: seq<Id>, s: Id)
    requires |cards| == |operations| == |itemIds|
    requires base.items == db.items && s != batch
    ensures var t := InsertItems(base, batch, BatchOperationAction(seed.target), cards, operations, itemIds);
      t.Commit? ==> CardsOfBatch(t.db.items, s) == CardsOfBatch(db.items, s)
  {
    var t := InsertItems(base, batch, BatchOperationAction(seed.target), cards, operations, itemIds);
    if cards != [] && t.Commit? {
      var n := |cards| - 1;
      SourceUntouched(db, base, batch, seed, cards[..n], operations[..n], itemIds[..n], s);
      var before := InsertItems(base, batch, BatchOperationAction(seed.target), cards[..n], operations[..n],
          itemIds[..n]).db;
      SameOutside(before.items, t.db.items, batch, s);
    }
  }

  predicate Linkable(db: Db, batch: Id, row: Batch, cards: seq<Id>) {
    batch in db.batches && db.batches[batch] == row.(retryOf := None) && OpenStatus(row.status) &&
    (forall b :: b in db.batches ==> db.batches[b].retryOf != Some(batch)) &&
    CardsOfBatch(db.items, batch) == CardSet(cards) && SourceMatches(db, row, cards)
  }

  lemma {:induction false} LinkKeepsBatches(db: Db, batch: Id, row: Batch, cards: seq<Id>)
    requires BatchesOk(db.batches, db.items) && Linkable(db, batch, row, cards)
    ensures BatchesOk(db.batches[batch := row], db.items)
  {
    forall b | b in db.batches ensures BatchOk(b, db.batches[batch := row][b], db.items) {
      assert BatchOk(b, db.batches[b], db.items);
    }
  }

  lemma {:induction false} LinkKeepsLineage(db: Db, batch: Id, row: Batch, cards: seq<Id>)
    requires LineageOk(db.batches, db.items) && Linkable(db, batch, row, cards)
    ensures LineageOk(db.batches[batch := row], db.items)
  {
    var batches' := db.batches[batch := row];
    forall b | b in batches' && batches'[b].retryOf.Some?
      ensures SameWork(batches', db.items, b, batches'[b].retryOf.value)
    {
      if b != batch { assert SameWork(db.batches, db.items, b, db.batches[b].retryOf.value); }
    }
  }

  // Setting the retry link of a finished draft.
  lemma {:induction false} LinkKeepsInv(db: Db, batch: Id, row: Batch, cards: seq<Id>)
    requires Inv(db) && Linkable(db, batch, row, cards)
    ensures Inv(db.(batches := db.batches[batch := row]))
  {
    var d := db.(batches := db.batches[batch := row]);
    LinkKeepsBatches(db, batch, row, cards);
    LinkKeepsLineage(db, batch, row, cards);
    hide BatchesOk, LineageOk, EvidenceOk, ExpiryEvidenceOk;
    EvidenceFrame(db, d);
    ExpiryFrame(db, d);
  }

  lemma {:induction false} CreateKeepsInv(db: Db, id: Id, target: string, reason: string, requestedBy: string,
        raw: seq<RawId>,
                       operations: seq<Id>, itemIds: seq<Id>, now: Time)
    requires Inv(db)
    ensures var t := CreateBatchTx(db, id, target, reason, requestedBy, raw, operations, itemIds, now);
      t.Commit? ==> Inv(t.db)
  {
    var t := CreateBatchTx(db, id, target, reason, requestedBy, raw, operations, itemIds, now);
    if t.Commit? {
      NormalizeAccepts(target, reason, raw);
      var r := Normalize(target, reason, raw).value;
      InsertBatchKeepsInv(db, id, NewBatch(r.target, r.reason, requestedBy, |r.cards|, None, now), r.cards, operations,
          itemIds);
    }
  }

  lemma {:induction false} MembersAreTheCards(items: map<Id, BatchItem>, batch: Id, ids: seq<Id>)
    requires forall x :: x in ids <==> x in items && items[x].batch == batch
    ensures CardSet(CardsOf(items, ids)) == CardsOfBatch(items, batch)
  {
    var cards := CardsOf(items, ids);
    forall k | 0 <= k < |cards| ensures cards[k] in CardsOfBatch(items, batch) {
      assert ids[k] in ids;
    }
    forall i | i in items && items[i].batch == batch ensures items[i].card in CardSet(cards) {
      assert i in ids;
      var k :| 0 <= k < |ids| && ids[k] == i;
      assert cards[k] == items[i].card;
    }
  }

  lemma {:induction false} MembersOfSource(db: Db, source: Id)
    requires EvidenceOk(db) && MembershipOk(db.items)
    ensures var cards := MemberCards(db, source);
      Distinct(cards) && CardSet(cards) == CardsOfBatch(db.items, source) &&
      forall k :: 0 <= k < |cards| ==> cards[k] in db.cards
  {
    var keys := CardKeys(db, source);
    var ids := Ordered(keys);
    var cards := MemberCards(db, source);
    MembersAreTheCards(db.items, source, ids);
    forall j, k | 0 <= j < k < |cards| ensures cards[j] != cards[k] {
      assert Before(keys, ids[j], ids[k]);
      assert ids[j] in keys && ids[k] in keys;
    }
    forall k | 0 <= k < |cards| ensures cards[k] in db.cards {
      assert ItemOk(db, ids[k]);
    }
  }

  lemma {:induction false} RetryKeepsInv(db: Db, source: Id, id: Id, requestedBy: string, operations: seq<Id>,
        itemIds: seq<Id>, now: Time)
    requires Inv(db)
    ensures var t := RetryBatchTx(db, source, id, requestedBy, operations, itemIds, now); t.Commit? ==> Inv(t.db)
  {
    var t := RetryBatchTx(db, source, id, requestedBy, operations, itemIds, now);
    if t.Commit? {
      var s := db.batches[source];
      assert BatchOk(source, s, db.items);
      MembersOfSource(db, source);
      InsertBatchKeepsInv(db, id, NewBatch(s.target, s.reason, requestedBy, s.itemCount, Some(source), now),
        MemberCards(db, source), operations, itemIds);
    }
  }
}
