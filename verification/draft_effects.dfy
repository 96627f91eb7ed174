// What drafting, retrying, queueing and cancelling a batch leave behind, written out from the request
// and the tables before.
module DraftEffects {
  import opened Wrappers
  import opened RowOrder
  import opened Lifecycle
  import opened Tables
  import opened DraftRequest
  import opened BatchTransactions
  import opened Evidence
  import opened BatchRefinement

  // ----- inserting the items -----

  predicate Unused(ids: seq<Id>, taken: set<Id>) {
    Distinct(ids) && forall k :: 0 <= k < |ids| ==> ids[k] !in taken
  }

  ghost predicate OperationsAdded(db: Db, d': Db, action: Action, cards: seq<Id>, operations: seq<Id>)
    requires |cards| == |operations|
  {
    (forall o :: o in d'.operations <==> o in db.operations || o in operations) &&
    (forall o :: o in db.operations ==> o in d'.operations && d'.operations[o] == db.operations[o]) &&
    forall k :: 0 <= k < |cards| ==>
      operations[k] in d'.operations && d'.operations[operations[k]] == Operation(cards[k], action, OpQueued)
  }

  ghost predicate ItemsAdded(db: Db, d': Db, batch: Id, cards: seq<Id>, operations: seq<Id>, itemIds: seq<Id>)
    requires |cards| == |operations| == |itemIds|
  {
    (forall i :: i in d'.items <==> i in db.items || i in itemIds) &&
    (forall i :: i in db.items ==> i in d'.items && d'.items[i] == db.items[i]) &&
    forall k :: 0 <= k < |cards| ==>
      itemIds[k] in d'.items &&
      d'.items[itemIds[k]] == BatchItem(batch, cards[k], operations[k], OutcomePending, None, None)
  }

  predicate IsNew(ids: seq<Id>, taken: set<Id>)
    requires ids != []
  {
    ids[|ids|-1] !in taken && ids[|ids|-1] !in ids[..|ids|-1]
  }

  lemma {:induction false} UnusedLast(ids: seq<Id>, taken: set<Id>)
    requires ids != []
    ensures Unused(ids, taken) <==> Unused(ids[..|ids|-1], taken) && IsNew(ids, taken)
  {
    var n := |ids| - 1;
    if Unused(ids[..n], taken) && IsNew(ids, taken) {
      forall i, j | 0 <= i < j < |ids| ensures ids[i] != ids[j] {
        if j < n { assert ids[..n][i] != ids[..n][j]; } else { assert ids[..n][i] == ids[i]; }
      }
      forall k | 0 <= k < |ids| ensures ids[k] !in taken {
        if k < n { assert ids[..n][k] == ids[k]; }
      }
    }
  }

  // The insertions commit exactly when all their ids are unused, and then add these rows and no others.
  lemma {:induction false} ItemsAreInserted(db: Db, batch: Id, action: Action, cards: seq<Id>, operations: seq<Id>,
        itemIds: seq<Id>)
    requires |cards| == |operations| == |itemIds|
    ensures var t := InsertItems(db, batch, action, cards, operations, itemIds);
      (t.Commit? <==> Unused(operations, db.operations.Keys) && Unused(itemIds, db.items.Keys)) &&
      (t.Rollback? ==> t.error == UniqueViolation) &&
      (t.Commit? ==>
        t.db == db.(operations := t.db.operations, items := t.db.items) &&
        t.reply == Done && OperationsAdded(db, t.db, action, cards, operations) &&
        ItemsAdded(db, t.db, batch, cards, operations, itemIds))
  {
    if cards != [] {
      var n := |cards| - 1;
      ItemsAreInserted(db, batch, action, cards[..n], operations[..n], itemIds[..n]);
      UnusedLast(operations, db.operations.Keys);
      UnusedLast(itemIds, db.items.Keys);
      hide Unused;
      var t := InsertItems(db, batch, action, cards[..n], operations[..n], itemIds[..n]);
      if t.Commit? { OneMoreItem(db, t.db, batch, action, cards, operations, itemIds); }
    }
  }

  lemma {:induction false} OneMoreOperation(db: Db, d: Db, d': Db, action: Action, cards: seq<Id>, operations: seq<Id>)
    requires |cards| == |operations| && cards != []
    requires var n := |cards| - 1; OperationsAdded(db, d, action, cards[..n], operations[..n])
    ensures var n := |cards| - 1; var o := operations[n];
      (o in d.operations <==> !IsNew(operations, db.operations.Keys)) &&
      (o !in d.operations && d'.operations == d.operations[o := Operation(cards[n], action, OpQueued)] ==>
        OperationsAdded(db, d', action, cards, operations))
  {
    var n := |cards| - 1;
    assert operations == operations[..n] + [operations[n]];
    forall k | 0 <= k < n
      ensures operations[k] in d.operations && d.operations[operations[k]] == Operation(cards[k], action, OpQueued)
    {
      assert operations[..n][k] == operations[k] && cards[..n][k] == cards[k];
    }
  }

  lemma {:induction false} OneMoreRow(db: Db, d: Db, d': Db, batch: Id, cards: seq<Id>, operations: seq<Id>,
        itemIds: seq<Id>)
    requires |cards| == |operations| == |itemIds| && cards != []
    requires var n := |cards| - 1; ItemsAdded(db, d, batch, cards[..n], operations[..n], itemIds[..n])
    ensures var n := |cards| - 1; var i := itemIds[n];
      (i in d.items <==> !IsNew(itemIds, db.items.Keys)) &&
      (i !in d.items &&
        d'.items == d.items[i := BatchItem(batch, cards[n], operations[n], OutcomePending, None, None)] ==>
        ItemsAdded(db, d', batch, cards, operations, itemIds))
  {
    var n := |cards| - 1;
    assert itemIds == itemIds[..n] + [itemIds[n]];
    forall k | 0 <= k < n
      ensures itemIds[k] in d.items &&
        d.items[itemIds[k]] == BatchItem(batch, cards[k], operations[k], OutcomePending, None, None)
    {
      assert operations[..n][k] == operations[k] && itemIds[..n][k] == itemIds[k] && cards[..n][k] == cards[k];
    }
  }

  lemma {:induction false} OneMoreItem(db: Db, d: Db, batch: Id, action: Action, cards: seq<Id>, operations: seq<Id>,
        itemIds: seq<Id>)
    requires |cards| == |operations| == |itemIds| && cards != []
    requires var n := |cards| - 1;
      OperationsAdded(db, d, action, cards[..n], operations[..n]) &&
      ItemsAdded(db, d, batch, cards[..n], operations[..n], itemIds[..n])
    ensures var n := |cards| - 1; var t := InsertItem(d, batch, action, cards[n], operations[n], itemIds[n]);
      (t.Commit? <==> IsNew(operations, db.operations.Keys) && IsNew(itemIds, db.items.Keys)) &&
      (t.Commit? ==>
        OperationsAdded(db, t.db, action, cards, operations) && ItemsAdded(db, t.db, batch, cards, operations, itemIds))
  {
    hide IsNew, OperationsAdded, ItemsAdded;
    var n := |cards| - 1;
    var t := InsertItem(d, batch, action, cards[n], operations[n], itemIds[n]);
    var d' := if t.Commit? then t.db else d;
    OneMoreOperation(db, d, d', action, cards, operations);
    OneMoreRow(db, d, d', batch, cards, operations, itemIds);
  }

  // ----- a new draft -----

  // The draft row is there, with exactly these items and operations; nothing else has changed.
  ghost predicate Drafted(db: Db, d': Db, id: Id, row: Batch, action: Action, cards: seq<Id>, operations: seq<Id>,
        itemIds: seq<Id>) {
    id !in db.batches && |cards| == |operations| == |itemIds| &&
    d' == db.(batches := db.batches[id := row], operations := d'.operations, items := d'.items) &&
    OperationsAdded(db, d', action, cards, operations) && ItemsAdded(db, d', id, cards, operations, itemIds)
  }

  predicate IdsFit(db: Db, size: nat, operations: seq<Id>, itemIds: seq<Id>) {
    |operations| == size && |itemIds| == size && Unused(operations, db.operations.Keys) &&
    Unused(itemIds, db.items.Keys)
  }

  // The batches table plays no part in what is added to the others.
  lemma {:induction false} SameAdditions(db: Db, d: Db, t: Tx, batch: Id, action: Action, cards: seq<Id>,
        operations: seq<Id>,
        itemIds: seq<Id>)
    requires |cards| == |operations| == |itemIds| && d.operations == db.operations && d.items == db.items
    ensures t.Commit? && OperationsAdded(d, t.db, action, cards, operations) ==>
      OperationsAdded(db, t.db, action, cards, operations)
    ensures t.Commit? && ItemsAdded(d, t.db, batch, cards, operations, itemIds) ==>
      ItemsAdded(db, t.db, batch, cards, operations, itemIds)
  {
  }

  lemma {:induction false} DraftIsInserted(db: Db, id: Id, row: Batch, cards: seq<Id>, operations: seq<Id>,
        itemIds: seq<Id>)
    ensures var t := InsertBatch(db, id, row, cards, operations, itemIds);
      (t.Commit? <==> id !in db.batches && IdsFit(db, |cards|, operations, itemIds)) &&
      (t.Commit? ==>
        t.reply == Done && Drafted(db, t.db, id, row, BatchOperationAction(row.target), cards, operations, itemIds)) &&
      (t.Rollback? ==> t.error == UniqueViolation || t.error == MissingId) &&
      (t.Rollback? && t.error == MissingId <==>
        id !in db.batches && (|operations| != |cards| || |itemIds| != |cards|))
  {
    hide InsertItems, OperationsAdded, ItemsAdded, Unused, BatchOperationAction;
    var d := db.(batches := db.batches[id := row]);
    if |cards| == |operations| == |itemIds| {
      ItemsAreInserted(d, id, BatchOperationAction(row.target), cards, operations, itemIds);
      SameAdditions(db, d, InsertItems(d, id, BatchOperationAction(row.target), cards, operations, itemIds), id,
        BatchOperationAction(row.target), cards, operations, itemIds);
    }
  }

  // The status that a request's text names, and the operation it means for each card.
  predicate Names(text: string, target: Status, action: Action) {
    (text == "active" && target == Active && action == Activate) ||
    (text == "suspended" && target == Suspended && action == Suspend) ||
    (text == "closed" && target == Closed && action == Close)
  }

  predicate WellFormed(target: string, reason: string, raw: seq<RawId>) {
    TrimSpace(target) in {"active", "suspended", "closed"} && TrimSpace(reason) != "" && 1 <= |raw| <= 200 &&
    AllCanonical(raw) && Distinct(Ids(raw))
  }

  predicate AllKnown(raw: seq<RawId>, cards: map<Id, Card>)
    requires AllCanonical(raw)
  {
    forall k :: 0 <= k < |raw| ==> raw[k].id in cards
  }

  lemma {:induction false} KnownInAnyOrder(raw: seq<RawId>, ids: seq<Id>, cards: map<Id, Card>)
    requires AllCanonical(raw) && multiset(ids) == multiset(Ids(raw))
    ensures AllKnown(raw, cards) <==> forall k :: 0 <= k < |ids| ==> ids[k] in cards
  {
    var raws := Ids(raw);
    forall k | 0 <= k < |raw| ensures raw[k].id in ids {
      assert raws[k] in multiset(raws);
      assert raws[k] in multiset(ids);
    }
    forall k | 0 <= k < |ids| ensures ids[k] in raws {
      assert ids[k] in multiset(ids);
      assert ids[k] in multiset(raws);
    }
  }

  // A draft is created exactly when the request is well formed, its cards exist and the ids are
  // unused; the error tells which of these fails first.
  lemma {:induction false} CreatingIsAnswered(db: Db, id: Id, target: string, reason: string, requestedBy: string,
        raw: seq<RawId>,
        operations: seq<Id>, itemIds: seq<Id>, now: Time)
    ensures var t := CreateBatchTx(db, id, target, reason, requestedBy, raw, operations, itemIds, now);
      if !WellFormed(target, reason, raw) then t == Rollback(InvalidRequest)
      else if !AllKnown(raw, db.cards) then t == Rollback(InvalidCard)
      else if id in db.batches then t == Rollback(UniqueViolation)
      else if |operations| != |raw| || |itemIds| != |raw| then t == Rollback(MissingId)
      else if !IdsFit(db, |raw|, operations, itemIds) then t == Rollback(UniqueViolation)
      else t.Commit? && t.reply == Done
  {
    hide Normalize, InsertBatch, TrimSpace, Unused;
    NormalizeAccepts(target, reason, raw);
    var r := Normalize(target, reason, raw);
    if r.Some? {
      KnownInAnyOrder(raw, r.value.cards, db.cards);
      DraftIsInserted(db, id, NewBatch(r.value.target, r.value.reason, requestedBy, |r.value.cards|, None, now),
        r.value.cards, operations, itemIds);
    }
  }

  lemma {:induction false} ParsedTarget(target: string, reason: string, raw: seq<RawId>)
    ensures var r := Normalize(target, reason, raw);
      r.Some? ==>
        r.value.reason == TrimSpace(reason) &&
        Names(TrimSpace(target), r.value.target, BatchOperationAction(r.value.target))
  {
  }

  // What a created draft is, from its request: the status the text names, the trimmed reason, the
  // actor, nothing done yet, and one pending item with one queued operation for each requested card,
  // in ascending order of the cards.
  lemma {:induction false} TheDraftIsTheRequest(db: Db, id: Id, target: string, reason: string, requestedBy: string,
        raw: seq<RawId>,
        operations: seq<Id>, itemIds: seq<Id>, now: Time) returns (cards: seq<Id>, action: Action)
    ensures var t := CreateBatchTx(db, id, target, reason, requestedBy, raw, operations, itemIds, now);
      t.Commit? ==>
        AllCanonical(raw) && StrictlyAscending(cards) && multiset(cards) == multiset(Ids(raw)) &&
        id in t.db.batches &&
        var to := t.db.batches[id].target;
        Names(TrimSpace(target), to, action) &&
        Drafted(db, t.db, id,
          Batch(to, TrimSpace(reason), requestedBy, Draft, |raw|, 0, 0, None, 0, now, None, 0, None), action, cards,
          operations, itemIds)
  {
    hide Normalize, InsertBatch, TrimSpace, OperationsAdded, ItemsAdded;
    NormalizeAccepts(target, reason, raw);
    ParsedTarget(target, reason, raw);
    var r := Normalize(target, reason, raw);
    cards, action := [], Activate;
    if r.Some? {
      cards, action := r.value.cards, BatchOperationAction(r.value.target);
      DraftIsInserted(db, id, NewBatch(r.value.target, r.value.reason, requestedBy, |cards|, None, now), cards,
        operations, itemIds);
    }
  }

  // ----- a retry -----

  lemma {:induction false} MembersAscend(db: Db, source: Id)
    ensures var cards := MemberCards(db, source);
      Sorted(cards) && |cards| == |ItemsOfBatch(db.items, source)| &&
      forall c :: c in cards <==> c in CardsOfBatch(db.items, source)
  {
    var keys := CardKeys(db, source);
    var ids := Ordered(keys);
    var cards := MemberCards(db, source);
    assert keys.Keys == ItemsOfBatch(db.items, source);
    forall j, k | 0 <= j < k < |cards| ensures cards[j] <= cards[k] {
      assert Before(keys, ids[j], ids[k]);
    }
    forall c | c in cards ensures c in CardsOfBatch(db.items, source) {
      var k :| 0 <= k < |cards| && cards[k] == c;
      assert ids[k] in ids;
    }
    forall c | c in CardsOfBatch(db.items, source) ensures c in cards {
      var i :| i in db.items && db.items[i].batch == source && db.items[i].card == c;
      assert i in ids;
      var k :| 0 <= k < |ids| && ids[k] == i;
      assert cards[k] == c;
    }
  }

  // A batch is retried exactly when it failed or was cancelled, its items are all there and the ids
  // are unused. The new draft repeats its target, reason and cards and is linked to it; who asked for
  // it is whoever asks now.
  lemma {:induction false} TheRetryRepeatsTheBatch(db: Db, source: Id, id: Id, requestedBy: string, operations: seq<Id>,
        itemIds: seq<Id>, now: Time) returns (cards: seq<Id>, action: Action)
    ensures var t := RetryBatchTx(db, source, id, requestedBy, operations, itemIds, now);
      if source !in db.batches then t == Rollback(NotFound)
      else
        var s := db.batches[source];
        var size := |ItemsOfBatch(db.items, source)|;
        if s.status != BatchStatus.Failed && s.status != Cancelled then t == Rollback(NotRetryable)
        else if size != s.itemCount || |operations| != size then t == Rollback(MembershipMismatch)
        else if id in db.batches then t == Rollback(UniqueViolation)
        else if |itemIds| != size then t == Rollback(MissingId)
        else if !IdsFit(db, size, operations, itemIds) then t == Rollback(UniqueViolation)
        else
          t.Commit? && t.reply == Done &&
          Sorted(cards) && (forall c :: c in cards <==> c in CardsOfBatch(db.items, source)) &&
          ActionTo(s.target, action) &&
          Drafted(db, t.db, id,
            Batch(s.target, s.reason, requestedBy, Draft, size, 0, 0, Some(source), 0, now, None, 0, None), action,
            cards, operations, itemIds)
  {
    hide MemberCards, InsertBatch, OperationsAdded, ItemsAdded, ItemsOfBatch, CardsOfBatch, Unused, Sorted;
    cards, action := MemberCards(db, source), Close;
    MembersAscend(db, source);
    if source in db.batches {
      var s := db.batches[source];
      action := BatchOperationAction(s.target);
      DraftIsInserted(db, id, NewBatch(s.target, s.reason, requestedBy, s.itemCount, Some(source), now), cards,
        operations, itemIds);
    }
  }

  predicate ActionTo(target: Status, action: Action) {
    (target == Active ==> action == Activate) && (target == Suspended ==> action == Suspend) &&
    (target == Closed ==> action == Close)
  }

  // ----- queueing and cancelling -----

  // Only a draft or a queued batch is cancelled. Its items and operations stay as they are.
  lemma {:induction false} CancellingStopsABatch(db: Db, id: Id)
    ensures var t := CancelBatchTx(db, id);
      if id !in db.batches then t == Rollback(NotFound)
      else if db.batches[id].status in {Draft, Queued} then
        t == Commit(db.(batches := db.batches[id := db.batches[id].(status := Cancelled)]), Done)
      else t == Rollback(NotCancellable)
  {
  }

  // Only a draft is queued, due at once; a batch in any other status is left as it is.
  lemma {:induction false} ExecutingQueuesADraft(db: Db, id: Id, now: Time)
    ensures var t := ExecuteBatchTx(db, id, now);
      if id !in db.batches then t == Rollback(NotFound)
      else if db.batches[id].status == Draft then
        t == Commit(db.(batches := db.batches[id := db.batches[id].(status := Queued, nextAttemptAt := now)]), Done)
      else t == Commit(db, Done)
  {
  }
}
