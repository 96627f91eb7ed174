// The failed attempts of an expiry item over a run.
module ExpiryFailures {
  import opened Wrappers
  import opened RowOrder
  import opened Lifecycle
  import opened Tables
  import opened DraftRequest
  import opened BatchTransactions
  import opened ExpiryTransactions
  import opened ShardInvariant
  import opened ExpirySteps
  import opened ForwardSteps
  import opened Executions
  import opened Fencing

  // A failed attempt: its worker requeued the item, or its lease was lost and recovered.
  predicate FailsAt(steps: seq<Step>, k: nat, i: Id)
    requires k < |steps|
  {
    (CommitsAt(steps, k) && steps[k].call.RequeueExpiryItem? && steps[k].call.expiryToken.item == i) ||
    RecoversItemAt(steps, k, i)
  }

  function Failures(steps: seq<Step>, i: Id): nat {
    if steps == [] then 0
    else Failures(steps[..|steps|-1], i) + (if FailsAt(steps, |steps| - 1, i) then 1 else 0)
  }

  function RetriesOf(items: map<Id, ExpiryItem>, i: Id): nat {
    if i in items then items[i].automaticRetries else 0
  }

  function Capped(n: nat): nat { if n < AUTOMATIC_RETRY_LIMIT then n else AUTOMATIC_RETRY_LIMIT }

  // ----- one committed step -----

  predicate FailsIn(db: Db, call: Call, now1: Time, i: Id) {
    (call.RequeueExpiryItem? && call.expiryToken.item == i) ||
    (call.RecoverExpiryItems? && i in ExpiredItemLeases(db, call.skipped, now1))
  }

  // What a failed attempt makes of the row: back to pending while automatic retries are left,
  // otherwise to the manual queue.
  predicate FailedAttempt(row: ExpiryItem, row': ExpiryItem) {
    row'.attemptCount == row.attemptCount + 1 && row'.manualRetries == row.manualRetries &&
    (if row.automaticRetries < AUTOMATIC_RETRY_LIMIT
     then row'.status == ExpPending && row'.automaticRetries == row.automaticRetries + 1
     else row'.status == ExpManual && row'.automaticRetries == row.automaticRetries)
  }

  lemma {:induction false} RequeueIsAFailure(db: Db, token: ExpiryToken, delay: nat, now: Time)
    requires SnapshotOk(db.expiryItems, token)
    ensures var t := RequeueExpiryItemTx(db, token, delay, now); var i := token.item;
      t.Commit? ==> (
        i in t.db.expiryItems && FailedAttempt(db.expiryItems[i], t.db.expiryItems[i]) &&
        t.db.expiryItems == db.expiryItems[i := t.db.expiryItems[i]])
  {
    hide CompletedRun, HasUnresolved;
  }

  lemma {:induction false} RecoveryIsAFailure(db: Db, skipped: set<Id>, now1: Time, now2: Time, i: Id)
    requires i in db.expiryItems
    ensures var after := RecoverExpiryItemsTx(db, skipped, now1, now2).db.expiryItems;
      i in after &&
      if i in ExpiredItemLeases(db, skipped, now1) then FailedAttempt(db.expiryItems[i], after[i])
      else after[i] == db.expiryItems[i]
  {
    hide CompleteRuns, DaysOf;
    RecoveryTable(db, skipped, now1, now2);
  }

  lemma {:induction false} ApplyRowsKeepExpiry(db: Db, rows: seq<LockedRow>, target: Status)
    ensures ApplyRows(db, rows, target).expiryItems == db.expiryItems
  {
    if rows != [] { ApplyRowsKeepExpiry(db, rows[..|rows|-1], target); }
  }

  lemma {:induction false} InsertBatchKeepsExpiry(db: Db, id: Id, row: Batch, cards: seq<Id>, operations: seq<Id>,
        itemIds: seq<Id>)
    ensures var t := InsertBatch(db, id, row, cards, operations, itemIds);
      t.Commit? ==> t.db.expiryItems == db.expiryItems
  {
    if |operations| == |cards| == |itemIds| {
      InsertItemsProgress(db.(batches := db.batches[id := row]), id, BatchOperationAction(row.target), cards,
        operations,
        itemIds);
    }
  }

  lemma {:induction false} BatchCallsKeepExpiry(db: Db, call: Call, now1: Time, now2: Time)
    requires !CardCall(call) && !ExpiryCall(call)
    ensures var t := Body(db, call, now1, now2); t.Commit? ==> t.db.expiryItems == db.expiryItems
  {
    hide InsertBatch, MemberCards, Normalize, ApplyRows, LockedRows, AllLegal, AppliedAmong, FailedItems,
         FailedOperations,
         WithOutcome;
    match call
    case CreateBatch(id, target, reason, actor, raw, operations, itemIds) =>
      var r := Normalize(target, reason, raw);
      if r.Some? {
        InsertBatchKeepsExpiry(db, id, NewBatch(r.value.target, r.value.reason, actor, |r.value.cards|, None, now1),
          r.value.cards, operations, itemIds);
      }
    case RetryBatch(source, id, actor, operations, itemIds) =>
      if source in db.batches {
        var s := db.batches[source];
        InsertBatchKeepsExpiry(db, id, NewBatch(s.target, s.reason, actor, s.itemCount, Some(source), now1),
          MemberCards(db, source), operations, itemIds);
      }
    case ApplyBatch(token) => ApplyRowsKeepExpiry(db, LockedRows(db, token.batch), token.target);
    case ExecuteBatch(id) =>
    case CancelBatch(id) =>
    case ClaimBatch(owner, duration, skipped) =>
    case RecoverBatches(skipped) =>
    case FailBatch(token, code) =>
    case RetryOrFail(token, maxAttempts, code, delay) =>
  }

  lemma {:induction false} CardCallsKeepExpiry(db: Db, call: Call, now1: Time, now2: Time)
    requires CardCall(call)
    ensures var t := Body(db, call, now1, now2); t.Commit? ==> t.db.expiryItems == db.expiryItems
  {
  }

  lemma {:induction false} NewItemsAreUntried(db: Db, day: Day, cards: seq<Id>, operations: seq<Id>, itemIds: seq<Id>,
        now: Time, i: Id)
    requires |cards| <= |operations| && |cards| <= |itemIds|
    ensures var t := ScheduleCards(db, day, cards, operations, itemIds, now);
      t.Commit? ==> RetriesOf(t.db.expiryItems, i) == RetriesOf(db.expiryItems, i)
  {
    if cards != [] { NewItemsAreUntried(db, day, cards[..|cards|-1], operations, itemIds, now, i); }
  }

  lemma {:induction false} EnsureKeepsRetries(db: Db, day: Day, skipped: set<Id>, operations: seq<Id>,
        itemIds: seq<Id>, now: Time, i: Id)
    ensures var t := EnsureExpiryRunTx(db, day, skipped, operations, itemIds, now);
      t.Commit? ==> RetriesOf(t.db.expiryItems, i) == RetriesOf(db.expiryItems, i)
  {
    hide SelectedCards, ScheduleCards;
    var begun := OpenRun(db, day);
    var cards := SelectedCards(begun, day, skipped);
    if |cards| <= |operations| && |cards| <= |itemIds| {
      NewItemsAreUntried(if cards != [] then ReopenRun(begun, day) else begun, day, cards, operations, itemIds, now, i);
    }
  }

  lemma {:induction false} OtherExpiryCallsKeepRetries(db: Db, call: Call, now1: Time, now2: Time, i: Id)
    requires ExpiryCall(call) && !call.RequeueExpiryItem? && !call.RecoverExpiryItems?
    ensures var t := Body(db, call, now1, now2);
      t.Commit? ==> RetriesOf(t.db.expiryItems, i) == RetriesOf(db.expiryItems, i)
  {
    hide EnsureExpiryRunTx, CompletedRun, HasUnresolved, SucceedOperation;
    match call
    case EnsureExpiryRun(day, skipped, operations, itemIds) => EnsureKeepsRetries(db, day, skipped, operations,
      itemIds, now1, i);
    case ClaimExpiryItem(owner, duration, skipped) =>
    case ApplyExpiryItem(token) =>
    case ManualExpiryRetry(day, item) =>
  }

  predicate FailureTurn(db: Db, db': Db, failed: bool, i: Id) {
    if failed then i in db.expiryItems && i in db'.expiryItems && FailedAttempt(db.expiryItems[i], db'.expiryItems[i])
    else RetriesOf(db'.expiryItems, i) == RetriesOf(db.expiryItems, i)
  }

  lemma {:induction false} BodyTurn(db: Db, call: Call, now1: Time, now2: Time, i: Id)
    requires call.RequeueExpiryItem? ==> SnapshotOk(db.expiryItems, call.expiryToken)
    ensures var t := Body(db, call, now1, now2); t.Commit? ==> FailureTurn(db, t.db, FailsIn(db, call, now1, i), i)
  {
    hide SnapshotOk, ExpiredItemLeases, FailedAttempt, RequeueExpiryItemTx, RecoverExpiryItemsTx;
    if call.RequeueExpiryItem? {
      RequeueIsAFailure(db, call.expiryToken, call.delay, now1);
      SnapshotExists(db.expiryItems, call.expiryToken);
    } else if call.RecoverExpiryItems? {
      RecoveryTurn(db, call.skipped, now1, now2, i);
    } else {
      hide Body;
      if CardCall(call) { CardCallsKeepExpiry(db, call, now1, now2); }
      else if ExpiryCall(call) { OtherExpiryCallsKeepRetries(db, call, now1, now2, i); }
      else { BatchCallsKeepExpiry(db, call, now1, now2); }
    }
  }

  lemma {:induction false} SnapshotExists(items: map<Id, ExpiryItem>, token: ExpiryToken)
    requires SnapshotOk(items, token)
    ensures token.item in items
  {
  }

  lemma {:induction false} RecoveryTurn(db: Db, skipped: set<Id>, now1: Time, now2: Time, i: Id)
    ensures var t := RecoverExpiryItemsTx(db, skipped, now1, now2);
      t.Commit? && FailureTurn(db, t.db, i in ExpiredItemLeases(db, skipped, now1), i)
  {
    hide CompleteRuns, DaysOf, FailedAttempt;
    RecoveryTable(db, skipped, now1, now2);
    if i in db.expiryItems { RecoveryIsAFailure(db, skipped, now1, now2, i); }
  }

  lemma {:induction false} StepTurn(steps: seq<Step>, k: nat, i: Id)
    requires k < |steps|
    ensures FailureTurn(At(steps, k).db, At(steps, k + 1).db, FailsAt(steps, k, i), i)
  {
    hide Run, Inv, Body, FailureTurn, SnapshotOk, ExpiredItemLeases;
    var w, s := At(steps, k), steps[k];
    CommittedStep(steps, k);
    if CommitsAt(steps, k) {
      EveryRunKeepsInv(steps[..k]);
      BodyTurn(w.db, s.call, w.clock + s.wait1, w.clock + s.wait1 + s.wait2, i);
    } else {
      NothingHappened(w.db, i);
    }
  }

  lemma {:induction false} NothingHappened(db: Db, i: Id)
    ensures FailureTurn(db, db, false, i)
  {
  }

  // ----- whole runs -----

  // An item's automatic retries are its failed attempts, up to three.
  lemma {:induction false} RetriesCountFailures(steps: seq<Step>, i: Id)
    ensures RetriesOf(Run(steps).db.expiryItems, i) == Capped(Failures(steps, i))
  {
    if steps != [] {
      var n := |steps| - 1;
      RetriesCountFailures(steps[..n], i);
      StepTurn(steps, n, i);
      assert steps[..n+1] == steps;
      hide Run, FailsAt;
    }
  }

  // In every run, an item's first three failed attempts, requeued or recovered, return it to pending;
  // the fourth, and every later one after a manual retry, sends it to the manual queue.
  lemma {:induction false} ThreeFailuresRetryFourGiveUp(steps: seq<Step>, k: nat, i: Id)
    requires k < |steps| && FailsAt(steps, k, i)
    ensures i in At(steps, k).db.expiryItems && i in At(steps, k + 1).db.expiryItems
    ensures var row := At(steps, k + 1).db.expiryItems[i];
      row.status == (if Failures(steps[..k], i) < 3 then ExpPending else ExpManual) &&
      row.automaticRetries == Capped(Failures(steps[..k], i) + 1)
  {
    hide Run, FailsAt, Failures;
    RetriesCountFailures(steps[..k], i);
    StepTurn(steps, k, i);
  }
}
