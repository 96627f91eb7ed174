// What every reachable state of the shard looks like, spelled out table by table.
module RunGuarantees {
  import opened Wrappers
  import opened RowOrder
  import opened Lifecycle
  import opened Tables
  import opened CardTransactions
  import opened BatchTransactions
  import opened ExpiryTransactions
  import opened CardLedger
  import opened Evidence
  import opened BatchRefinement
  import opened ReplacementForest
  import opened RetryLineage
  import opened ExpiryAccounting
  import opened ShardInvariant
  import opened ExpirySteps
  import opened ForwardSteps
  import opened Executions
  import opened Fencing

  lemma {:induction false} InvOf(steps: seq<Step>) returns (db: Db)
    ensures db == Run(steps).db && Inv(db)
  {
    hide Inv, Run, Next;
    EveryRunKeepsInv(steps);
    db := Run(steps).db;
  }

  // ----- cards -----

  // Each card's history is a chain of legal moves from its issue to its current status, and its
  // version counts them. A card that was never issued has no history.
  lemma {:induction false} CardStories(steps: seq<Step>, card: Id)
    ensures var db := Run(steps).db; var rows := RowsOf(db.history, card);
      if card in db.cards then
        Chain(rows) && |rows| == db.cards[card].version && rows[|rows|-1].next == db.cards[card].status
      else rows == []
  {
    var db := InvOf(steps);
    ReplayGivesChains(db.history, card);
    assert Replay(db.history) == Some(Heads(db.cards));
  }

  // The statuses a card went through are a walk along the lifecycle graph: before the last row nothing
  // is final, and after the first nothing is pending or issued again.
  lemma {:induction false} CardsNeverTurnBack(steps: seq<Step>, card: Id, i: nat, j: nat)
    requires var rows := RowsOf(Run(steps).db.history, card); i < j < |rows|
    ensures var rows := RowsOf(Run(steps).db.history, card);
      !Final(rows[i].next) && rows[j].next != Pending && rows[j].next != Issued
  {
    hide Run, RowsOf, Final;
    CardStories(steps, card);
    var rows := RowsOf(Run(steps).db.history, card);
    ChainIsAWalk(rows);
    WalksEndForGood(seq(|rows|, k requires 0 <= k < |rows| => rows[k].next), i, j);
  }

  // Closed and expired are final: the card's status, version and history never change again.
  lemma {:induction false} FinalCardsNeverMove(steps: seq<Step>, i: nat, j: nat, card: Id)
    requires i <= j <= |steps|
    requires card in At(steps, i).db.cards && Final(At(steps, i).db.cards[card].status)
    ensures var db, db' := At(steps, i).db, At(steps, j).db;
      card in db'.cards && db'.cards[card].status == db.cards[card].status &&
      db'.cards[card].version == db.cards[card].version && RowsOf(db'.history, card) == RowsOf(db.history, card)
  {
    hide Run;
    RunsGoForward(steps, i, j);
    var db := InvOf(steps[..i]);
    var db' := InvOf(steps[..j]);
    FinalCardsStay(db, db', card);
  }

  // An ignored command leaves every card and the history as they were.
  lemma {:induction false} IgnoredCommandsAddNothing(db: Db, card: Id, action: Action, operation: Id,
        predecessorOperation: Id)
    requires card in db.cards && TargetOf(action) == Some(db.cards[card].status)
    ensures var t := CommandTx(db, card, action, operation, predecessorOperation);
      t.Commit? ==> t.db == db.(operations := t.db.operations) && |t.db.operations| == |db.operations| + 1
  {
    TransitionFollowsTheGraph(db.cards[card].status, action);
    var t := CommandTx(db, card, action, operation, predecessorOperation);
    if t.Commit? { assert t.db.operations.Keys == db.operations.Keys + {operation}; }
  }

  // Activating a card by command leaves its predecessor closed or expired.
  lemma {:induction false} ActivationRetiresThePredecessor(steps: seq<Step>, k: nat)
    requires k < |steps| && CommitsAt(steps, k) && steps[k].call.CardCommand? && steps[k].call.action == Activate
    requires var c := steps[k].call.card; var db := At(steps, k).db;
      c in db.cards ==> db.cards[c].status != Active && db.cards[c].predecessor.Some?
    ensures var c := steps[k].call.card; var db := At(steps, k).db; var db' := At(steps, k + 1).db;
      c in db.cards && db'.cards.Keys == db.cards.Keys && db'.cards[c] == Moved(db.cards[c], Active) &&
      var p := db.cards[c].predecessor.value;
      p in db'.cards && Final(db'.cards[p].status)
  {
    hide Run;
    CommittedStep(steps, k);
    var db := InvOf(steps[..k]);
    RetiresPredecessor(db, steps[k].call.card, steps[k].call.operation, steps[k].call.predecessorOperation);
  }

  lemma {:induction false} RetiresPredecessor(db: Db, card: Id, operation: Id, predecessorOperation: Id)
    requires CardsInv(db) && card in db.cards && db.cards[card].status != Active && db.cards[card].predecessor.Some?
    ensures var t := CommandTx(db, card, Activate, operation, predecessorOperation);
      t.Commit? ==> (
        t.db.cards.Keys == db.cards.Keys && t.db.cards[card] == Moved(db.cards[card], Active) &&
        var p := db.cards[card].predecessor.value;
        p in t.db.cards && Final(t.db.cards[p].status))
  {
    hide LedgerOk, HistoryOwned, OneIssued;
    TransitionFollowsTheGraph(db.cards[card].status, Activate);
    var p := db.cards[card].predecessor.value;
    assert p in db.cards && FirstRow(db.history, p) < FirstRow(db.history, card) && Underway(db.cards[p].status);
    assert p != card;
  }

  // A batch moves its own members and no other card.
  lemma {:induction false} BatchesMoveOnlyTheirCards(steps: seq<Step>, k: nat, card: Id)
    requires k < |steps| && CommitsAt(steps, k) && steps[k].call.ApplyBatch?
    requires card in At(steps, k).db.cards && card !in CardsOfBatch(At(steps, k).db.items,
        steps[k].call.batchToken.batch)
    ensures card in At(steps, k + 1).db.cards && At(steps, k + 1).db.cards[card] == At(steps, k).db.cards[card]
  {
    hide Run;
    CommittedStep(steps, k);
    var db := InvOf(steps[..k]);
    var now := At(steps, k).clock + steps[k].wait1;
    ApplyBatchIsAtomic(db, steps[k].call.batchToken, now, now + steps[k].wait2);
    hide ApplyBatchTx;
  }

  // ----- replacements -----

  lemma {:induction false} NoCardIsItsOwnAncestor(steps: seq<Step>, path: seq<Id>)
    requires LinkPath(Run(steps).db.cards, path) && |path| > 1
    ensures path[0] != path[|path|-1]
  {
    var db := InvOf(steps);
    Acyclic(db.cards, db.history, path);
  }

  // A predecessor has left issuance, and has at most one successor still waiting for activation.
  lemma {:induction false} PredecessorsInEveryRun(steps: seq<Step>, c: Id, d: Id)
    requires var cards := Run(steps).db.cards;
      c in cards && d in cards && cards[c].predecessor.Some? && cards[d].predecessor == cards[c].predecessor
    ensures var cards := Run(steps).db.cards; var p := cards[c].predecessor.value;
      p in cards && cards[p].status != Pending && cards[p].status != Issued &&
      (cards[c].status == Issued && cards[d].status == Issued ==> c == d)
  {
    var db := InvOf(steps);
  }

  // ----- batches -----

  // The evidence of a batch item, read off its batch's status.
  lemma {:induction false} ItemEvidence(steps: seq<Step>, i: Id)
    requires i in Run(steps).db.items
    ensures var db := Run(steps).db; var item := db.items[i];
      item.batch in db.batches && item.card in db.cards && item.operation in db.operations &&
      var b, op, rows := db.batches[item.batch], db.operations[item.operation], RowsFor(db.history, item.operation);
      op.card == item.card && op.action == BatchOperationAction(b.target) &&
      (b.status in {Draft, Queued, Processing, Cancelled} ==>
        item.outcome == OutcomePending && op.status == OpQueued && rows == []) &&
      (b.status == Succeeded ==> op.status == OpSucceeded) &&
      (b.status == Succeeded ==>
        (item.outcome == OutcomeIgnored && rows == []) ||
        (item.outcome == OutcomeApplied && item.previous.Some? && Legal(item.previous.value, b.target) &&
         rows == [HistoryRow(item.card, item.operation, item.previous.value, b.target)])) &&
      (b.status == BatchStatus.Failed ==>
        (item.outcome == OutcomeIgnored || item.outcome == OutcomeNotApplied) && op.status == OpFailed && rows == [])
  {
    var db := InvOf(steps);
    assert ItemOk(db, i);
  }

  // The counters of a batch are the tallies of its items; a succeeded batch accounts for each.
  lemma {:induction false} BatchTotals(steps: seq<Step>, b: Id)
    requires b in Run(steps).db.batches
    ensures var db := Run(steps).db; var row := db.batches[b];
      row.itemCount == |ItemsOfBatch(db.items, b)| &&
      row.appliedCount == |WithOutcome(db.items, b, OutcomeApplied)| &&
      row.ignoredCount == |WithOutcome(db.items, b, OutcomeIgnored)| &&
      (row.status == Succeeded ==> row.appliedCount + row.ignoredCount == row.itemCount) &&
      (row.lease.Some? <==> row.status == Processing)
  {
    var db := InvOf(steps);
    assert BatchOk(b, db.batches[b], db.items);
    NoEarlyOutcomes(db, b);
    hide Run, CardsInv, BatchInv, ExpiryInv, WithOutcome, ItemsOfBatch;
  }

  // Only a succeeded batch has applied items, and only a finished one has ignored items.
  lemma {:induction false} NoEarlyOutcomes(db: Db, b: Id)
    requires EvidenceOk(db) && b in db.batches
    ensures db.batches[b].status != Succeeded ==> WithOutcome(db.items, b, OutcomeApplied) == {}
    ensures OpenStatus(db.batches[b].status) ==> WithOutcome(db.items, b, OutcomeIgnored) == {}
  {
    hide RowsFor;
    forall i | i in db.items && db.items[i].batch == b
      ensures db.batches[b].status != Succeeded ==> db.items[i].outcome != OutcomeApplied
      ensures OpenStatus(db.batches[b].status) ==> db.items[i].outcome != OutcomeIgnored
    {
      assert ItemOk(db, i);
    }
  }

  // The UPDATEs of the item loop never miss: whenever a lease passes the first guard, the locked rows
  // are all of the batch, and the j-th turn finds its item pending, its operation queued, and its card
  // as the lock saw it.
  lemma {:induction false} LoopUpdatesAlwaysHit(steps: seq<Step>, token: BatchToken, now: Time, j: nat)
    requires LeaseHeld(Run(steps).db, token, now) && j < |LockedRows(Run(steps).db, token.batch)|
    ensures var db := Run(steps).db; var rows := LockedRows(db, token.batch);
      RowReady(ApplyRows(db, rows[..j], token.target), rows[j]) && |rows| == db.batches[token.batch].itemCount
  {
    hide Run, LockedRows, ApplyRows, RowReady, LedgerOk, ForestOk;
    var db := InvOf(steps);
    BatchRowsReady(db, token.batch);
    TurnIsReady(db, LockedRows(db, token.batch), token.target, j);
    TalliesOfBatch(db, token.batch, token.target);
    assert BatchOk(token.batch, db.batches[token.batch], db.items);
  }

  // So do those of a failing batch: each of its items is pending with a queued operation.
  lemma {:induction false} FailUpdatesAlwaysHit(steps: seq<Step>, token: BatchToken, now: Time, i: Id)
    requires LeaseHeld(Run(steps).db, token, now) && i in ItemsOfBatch(Run(steps).db.items, token.batch)
    ensures var db := Run(steps).db; var o := db.items[i].operation;
      FailsHere(db, db.items[i], token.batch) && o in db.operations && db.operations[o].status == OpQueued
  {
    hide Run, RowsFor;
    var db := InvOf(steps);
    assert ItemOk(db, i);
  }

  // And those of an expiry: whoever holds a live lease on an item finds its card and its queued operation.
  lemma {:induction false} ExpiryUpdatesAlwaysHit(steps: seq<Step>, token: ExpiryToken, now: Time)
    requires token in Run(steps).expiryTokens && ExpiryLeaseHeld(Run(steps).db, token, now)
    ensures var db := Run(steps).db;
      token.card in db.cards && token.operation in db.operations &&
      db.operations[token.operation] == Operation(token.card, Expire, OpQueued)
  {
    hide Run, RowsFor;
    var db := InvOf(steps);
    HeldItemTokens(steps, token);
    assert ExpiryItemOk(db, token.item);
  }

  lemma {:induction false} HeldItemTokens(steps: seq<Step>, token: ExpiryToken)
    requires token in Run(steps).expiryTokens
    ensures SnapshotOk(Run(steps).db.expiryItems, token)
  {
    hide Run, Inv;
    EveryRunKeepsInv(steps);
  }

  lemma {:induction false} TurnIsReady(db: Db, rows: seq<LockedRow>, target: Status, k: nat)
    requires RowsReady(db, rows) && k < |rows|
    ensures RowReady(ApplyRows(db, rows[..k], target), rows[k])
  {
    PrefixIsReady(db, rows, k + 1);
    hide ApplyRows, RowsReady, RowsBacked, MovesOnce, RowReady, After, ItemsIn, CardsIn, OperationsIn;
    LastIsNew(db, rows[..k+1]);
    assert rows[..k+1][..k] == rows[..k];
    PrefixIsReady(db, rows, k);
    ReadyMovesOnce(db, rows[..k], target);
    LoopIsAfter(db, rows[..k], target);
    OtherTurnsLeaveTheRow(db, rows[..k], rows[k], target);
  }

  lemma {:induction false} PrefixIsReady(db: Db, rows: seq<LockedRow>, k: nat)
    requires RowsReady(db, rows) && k <= |rows|
    ensures RowsReady(db, rows[..k])
  {
    hide RowReady;
  }

  lemma {:induction false} OtherTurnsLeaveTheRow(db: Db, rows: seq<LockedRow>, r: LockedRow, target: Status)
    requires RowReady(db, r)
    requires r.item !in ItemsIn(rows) && r.card !in CardsIn(rows) && r.operation !in OperationsIn(rows)
    ensures RowReady(After(db, rows, target), r)
  {
  }

  // Retries of retries still do the root draft's work.
  lemma {:induction false} RetryChains(steps: seq<Step>, path: seq<Id>)
    requires RetryPath(Run(steps).db.batches, path)
    ensures var db := Run(steps).db; var first, root := path[0], path[|path|-1];
      db.batches[first].target == db.batches[root].target && db.batches[first].reason == db.batches[root].reason &&
      db.batches[first].itemCount == db.batches[root].itemCount &&
      CardsOfBatch(db.items, first) == CardsOfBatch(db.items, root)
  {
    var db := InvOf(steps);
    RetriesDoTheRootsWork(db.batches, db.items, path);
  }

  // A batch's request and its cards are fixed from the moment it exists.
  lemma {:induction false} RequestsAreFixed(steps: seq<Step>, i: nat, j: nat, b: Id)
    requires i <= j <= |steps| && b in At(steps, i).db.batches
    ensures var d, d' := At(steps, i).db, At(steps, j).db;
      b in d'.batches && d'.batches[b].target == d.batches[b].target && d'.batches[b].reason == d.batches[b].reason &&
      d'.batches[b].retryOf == d.batches[b].retryOf && d'.batches[b].itemCount == d.batches[b].itemCount &&
      CardsOfBatch(d'.items, b) == CardsOfBatch(d.items, b)
  {
    hide Run;
    RunsGoForward(steps, i, j);
    SameCardsForward(At(steps, i).db, At(steps, j).db, b);
  }

  lemma {:induction false} SameCardsForward(d: Db, d': Db, b: Id)
    requires Progress(d, d') && b in d.batches
    ensures b in d'.batches && RowProgress(d.batches[b], d'.batches[b])
    ensures CardsOfBatch(d'.items, b) == CardsOfBatch(d.items, b)
  {
    forall x | x in d.items && d.items[x].batch == b ensures d.items[x].card in CardsOfBatch(d'.items, b) {
      assert x in d'.items && d'.items[x].batch == b && d'.items[x].card == d.items[x].card;
    }
    forall x | x in d'.items && d'.items[x].batch == b ensures d'.items[x].card in CardsOfBatch(d.items, b) {
      assert x in d.items && d.items[x].batch == b && d.items[x].card == d'.items[x].card;
    }
  }

  // ----- expiry -----

  lemma {:induction false} ExpiryItemEvidence(steps: seq<Step>, i: Id)
    requires i in Run(steps).db.expiryItems
    ensures var db := Run(steps).db; var item := db.expiryItems[i];
      item.card in db.cards && item.operation in db.operations && item.day in db.runs &&
      var op, rows := db.operations[item.operation], RowsFor(db.history, item.operation);
      op.card == item.card && op.action == Expire &&
      (item.status in {ExpPending, ExpProcessing, ExpManual} ==> op.status == OpQueued && rows == []) &&
      (item.status == ExpSkipped ==> op.status == OpSucceeded && rows == []) &&
      (item.status == ExpExpired ==> op.status == OpSucceeded) &&
      (item.status == ExpExpired ==>
        exists was :: Legal(was, Expired) && rows == [HistoryRow(item.card, item.operation, was, Expired)])
  {
    hide Run, Inv;
    var db := InvOf(steps);
    ExpiryEvidenceByInv(db, i);
    var item := db.expiryItems[i];
    if item.status == ExpExpired {
      var rows := RowsFor(db.history, item.operation);
      RowsForOwn(db.history, item.operation);
      assert rows == [HistoryRow(item.card, item.operation, rows[0].previous, Expired)];
    }
  }

  lemma {:induction false} ExpiryEvidenceByInv(db: Db, i: Id)
    requires Inv(db) && i in db.expiryItems
    ensures ExpiryItemOk(db, i)
  {
  }

  lemma {:induction false} RowsForOwn(history: seq<HistoryRow>, operation: Id)
    ensures forall k :: 0 <= k < |RowsFor(history, operation)| ==> RowsFor(history, operation)[k].operation == operation
  {
    if history != [] { RowsForOwn(history[..|history|-1], operation); }
  }

  lemma {:induction false} ExpiryAttempts(steps: seq<Step>, i: Id)
    requires i in Run(steps).db.expiryItems
    ensures var item := Run(steps).db.expiryItems[i];
      item.attemptCount == item.automaticRetries + item.manualRetries +
        (if item.status in {ExpManual, ExpExpired, ExpSkipped} then 1 else 0) &&
      item.automaticRetries <= 3 && item.attemptCount <= 4 + item.manualRetries &&
      (item.status == ExpManual || item.manualRetries > 0 ==> item.automaticRetries == 3)
  {
    var db := InvOf(steps);
    assert AccountOk(db.expiryItems[i]);
    AttemptsAreBounded(db.expiryItems[i]);
  }

  // The retry count a live claim carries is the row's, so deciding by the snapshot is deciding by the row.
  lemma {:induction false} LiveSnapshotIsTheRow(steps: seq<Step>, t: ExpiryToken)
    requires t in Run(steps).expiryTokens && !DeadItem(Run(steps), t)
    ensures t.item in Run(steps).db.expiryItems
    ensures var row := Run(steps).db.expiryItems[t.item];
      t.automaticRetries == row.automaticRetries && t.card == row.card && t.operation == row.operation &&
      t.day == row.day &&
      t.leaseVersion == row.leaseVersion && row.lease.Some? && row.lease.value.owner == t.owner
  {
    hide Run, Inv;
    EveryRunKeepsInv(steps);
    assert SnapshotOk(Run(steps).db.expiryItems, t);
  }

  // A completed run has nothing left to do and its counts add up; a run with work left is open.
  lemma {:induction false} RunTotals(steps: seq<Step>, day: Day)
    requires day in Run(steps).db.runs
    ensures var db := Run(steps).db; var run := db.runs[day];
      run.itemCount == |ItemsOfRun(db.expiryItems, day)| &&
      (HasUnresolved(db.expiryItems, day) ==> !run.completed) &&
      (run.completed ==>
        run.expiredCount == |Tally(db.expiryItems, day, ExpExpired)| &&
        run.skippedCount == |Tally(db.expiryItems, day, ExpSkipped)| &&
        run.manualCount == |Tally(db.expiryItems, day, ExpManual)| &&
        run.expiredCount + run.skippedCount + run.manualCount == run.itemCount)
  {
    var db := InvOf(steps);
    assert RunOk(day, db.runs[day], db.expiryItems);
    if db.runs[day].completed { CompletedCountsAddUp(day, db.runs[day], db.expiryItems); }
  }
}
