// How often a batch is claimed, requeued and recovered over a run.
module RetryBudget {
  import opened Wrappers
  import opened RowOrder
  import opened Tables
  import opened DraftRequest
  import opened BatchTransactions
  import opened ExpiryTransactions
  import opened BatchSteps
  import opened ForwardSteps
  import opened Executions
  import opened Fencing

  predicate RequeuesAt(steps: seq<Step>, k: nat, b: Id)
    requires k < |steps|
  {
    CommitsAt(steps, k) && RequeueCall(steps[k].call) && steps[k].call.batchToken.batch == b
  }

  // retryBatch requeues while the claim's attempt count is under the maximum, and fails otherwise.
  predicate RequeueCall(call: Call) {
    call.RetryOrFail? && call.batchToken.attemptCount < call.maxAttempts
  }

  function Claims(steps: seq<Step>, b: Id): nat {
    if steps == [] then 0
    else Claims(steps[..|steps|-1], b) + (if ClaimsAt(steps, |steps| - 1, b) then 1 else 0)
  }

  function Requeues(steps: seq<Step>, b: Id): nat {
    if steps == [] then 0
    else Requeues(steps[..|steps|-1], b) + (if RequeuesAt(steps, |steps| - 1, b) then 1 else 0)
  }

  function Recoveries(steps: seq<Step>, b: Id): nat {
    if steps == [] then 0
    else Recoveries(steps[..|steps|-1], b) + (if RecoversAt(steps, |steps| - 1, b) then 1 else 0)
  }

  function AttemptsOf(db: Db, b: Id): nat {
    if b in db.batches then db.batches[b].attemptCount else 0
  }

  // Whether the last claim is still being worked on or ended the batch.
  function Used(db: Db, b: Id): nat {
    if b in db.batches && db.batches[b].status in {Processing, Succeeded, BatchStatus.Failed} then 1 else 0
  }

  // ----- one committed step -----

  predicate SameAttempts(db: Db, db': Db, b: Id) {
    AttemptsOf(db', b) == AttemptsOf(db, b) && Used(db', b) == Used(db, b)
  }

  lemma {:induction false} CardCallsKeepBatches(db: Db, call: Call, now1: Time, now2: Time)
    requires CardCall(call)
    ensures var t := Body(db, call, now1, now2); t.Commit? ==> t.db.batches == db.batches
  {
  }

  lemma {:induction false} ExpiryCallsKeepBatches(db: Db, call: Call, now1: Time, now2: Time)
    requires ExpiryCall(call)
    ensures var t := Body(db, call, now1, now2); t.Commit? ==> t.db.batches == db.batches
  {
    hide EnsureExpiryRunTx, RecoverExpiryItemsTx, ApplyExpiryItemTx, DueItems;
    match call
    case EnsureExpiryRun(day, skipped, operations, itemIds) =>
      EnsureKeepsBatchesAndCards(db, day, skipped, operations, itemIds, now1);
    case RecoverExpiryItems(skipped) => RecoveryKeepsBatchesAndCards(db, skipped, now1, now2);
    case ClaimExpiryItem(owner, duration, skipped) =>
    case ApplyExpiryItem(token) => ExpiringKeepsBatches(db, token, now1, now2);
    case RequeueExpiryItem(token, delay) =>
    case ManualExpiryRetry(day, item) =>
  }

  lemma {:induction false} ExpiringKeepsBatches(db: Db, token: ExpiryToken, now1: Time, now2: Time)
    ensures var t := ApplyExpiryItemTx(db, token, now1, now2); t.Commit? ==> t.db.batches == db.batches
  {
    hide ResolvedItem;
  }

  lemma {:induction false} RecoveryKeepsBatchesAndCards(db: Db, skipped: set<Id>, now1: Time, now2: Time)
    ensures var d := RecoverExpiryItemsTx(db, skipped, now1, now2).db; d.batches == db.batches && d.cards == db.cards
  {
    hide CompleteRuns, DaysOf, RecoveredItem, CompleteRun;
    var lost := ExpiredItemLeases(db, skipped, now1);
    CompleteAllChangesRunsOnly(db.(expiryItems := RecoveredItems(db, lost, now2)), DaysOf(db, Ordered(ById(lost))));
  }

  lemma {:induction false} EnsureKeepsBatchesAndCards(db: Db, day: Day, skipped: set<Id>, operations: seq<Id>,
        itemIds: seq<Id>, now: Time)
    ensures var t := EnsureExpiryRunTx(db, day, skipped, operations, itemIds, now);
      t.Commit? ==> t.db.batches == db.batches && t.db.cards == db.cards
  {
    hide SelectedCards;
    var t := EnsureExpiryRunTx(db, day, skipped, operations, itemIds, now);
    if t.Commit? {
      var begun := OpenRun(db, day);
      var cards := SelectedCards(begun, day, skipped);
      ScheduleProgress(if cards != [] then ReopenRun(begun, day) else begun, day, cards, operations, itemIds, now);
    }
  }

  lemma {:induction false} NewBatchRow(db: Db, id: Id, row: Batch, cards: seq<Id>, operations: seq<Id>,
        itemIds: seq<Id>)
    ensures var t := InsertBatch(db, id, row, cards, operations, itemIds);
      t.Commit? ==> id !in db.batches && t.db.batches == db.batches[id := row] && t.db.cards == db.cards
  {
    var d := db.(batches := db.batches[id := row]);
    if |operations| == |cards| == |itemIds| {
      InsertItemsIgnoresBatches(d, d.batches, id, BatchOperationAction(row.target), cards, operations, itemIds);
    }
  }

  lemma {:induction false} DraftsAreUntried(db: Db, call: Call, now1: Time, now2: Time, b: Id)
    requires call.CreateBatch? || call.RetryBatch?
    ensures var t := Body(db, call, now1, now2); t.Commit? ==> SameAttempts(db, t.db, b)
  {
    hide InsertBatch, MemberCards, Normalize;
    match call
    case CreateBatch(id, target, reason, actor, raw, operations, itemIds) =>
      var r := Normalize(target, reason, raw);
      if r.Some? {
        NewBatchRow(db, id, NewBatch(r.value.target, r.value.reason, actor, |r.value.cards|, None, now1),
            r.value.cards, operations, itemIds);
      }
    case RetryBatch(source, id, actor, operations, itemIds) =>
      if source in db.batches {
        var s := db.batches[source];
        NewBatchRow(db, id, NewBatch(s.target, s.reason, actor, s.itemCount, Some(source), now1), MemberCards(db,
            source), operations, itemIds);
      }
  }

  predicate Untracked(call: Call) {
    !call.ClaimBatch? && !call.RecoverBatches? && !RequeueCall(call)
  }

  // Every other call leaves the attempts and the use of every batch as they are.
  lemma {:induction false} OtherCallsKeepAttempts(db: Db, call: Call, now1: Time, now2: Time, b: Id)
    requires Untracked(call)
    ensures var t := Body(db, call, now1, now2); t.Commit? ==> SameAttempts(db, t.db, b)
  {
    if CardCall(call) { CardCallsKeepBatches(db, call, now1, now2); }
    else if ExpiryCall(call) { ExpiryCallsKeepBatches(db, call, now1, now2); }
    else if call.CreateBatch? || call.RetryBatch? { DraftsAreUntried(db, call, now1, now2, b); }
    else { ExecutionKeepsAttempts(db, call, now1, now2, b); }
  }

  lemma {:induction false} ExecutionKeepsAttempts(db: Db, call: Call, now1: Time, now2: Time, b: Id)
    requires Untracked(call) && !CardCall(call) && !ExpiryCall(call) && !call.CreateBatch? && !call.RetryBatch?
    ensures var t := Body(db, call, now1, now2); t.Commit? ==> SameAttempts(db, t.db, b)
  {
    hide ApplyRows, LockedRows, AllLegal, FailedItems, FailedOperations, WithOutcome, AppliedAmong;
    match call
    case ExecuteBatch(id) =>
    case CancelBatch(id) =>
    case ApplyBatch(token) =>
    case FailBatch(token, code) =>
    case RetryOrFail(token, maxAttempts, code, delay) =>
  }

  function One(p: bool): nat { if p then 1 else 0 }

  predicate ClaimsIn(call: Call, t: Tx, b: Id) {
    call.ClaimBatch? && t.Commit? && t.reply.BatchWork? && t.reply.batchToken.batch == b
  }

  predicate RecoversIn(db: Db, call: Call, now: Time, b: Id) {
    call.RecoverBatches? && b in ExpiredLeases(db, call.skipped, now)
  }

  predicate RequeuesIn(call: Call, b: Id) {
    RequeueCall(call) && call.batchToken.batch == b
  }

  lemma {:induction false} BodyBalance(db: Db, call: Call, now1: Time, now2: Time, b: Id)
    ensures var t := Body(db, call, now1, now2);
      t.Commit? ==>
        AttemptsOf(t.db, b) == AttemptsOf(db, b) + One(ClaimsIn(call, t, b)) &&
        Used(t.db, b) + One(RequeuesIn(call, b)) + One(RecoversIn(db, call, now1, b)) ==
          Used(db, b) + One(ClaimsIn(call, t, b))
  {
    if Untracked(call) {
      hide Body, AttemptsOf, Used, ExpiredLeases;
      OtherCallsKeepAttempts(db, call, now1, now2, b);
    } else {
      hide AttemptsOf, Used, ExpiredLeases, ClaimBatchTx, RecoverBatchesTx, RequeueBatchTx;
      if call.ClaimBatch? { ClaimBalance(db, call.owner, call.duration, call.skipped, now1, now2, b); }
      else if call.RecoverBatches? { RecoveryBalance(db, call.skipped, now1, now2, b); }
      else { RequeueBalance(db, call.batchToken, call.code, call.delay, now1, b); }
    }
  }

  // A claim is the only thing that adds an attempt; it puts it to use, and only a requeue or a
  // recovery gives that use back.
  lemma {:induction false} StepBalance(steps: seq<Step>, k: nat, b: Id)
    requires k < |steps|
    ensures var d, d' := At(steps, k).db, At(steps, k + 1).db;
      AttemptsOf(d', b) == AttemptsOf(d, b) + One(ClaimsAt(steps, k, b)) &&
      Used(d', b) + One(RequeuesAt(steps, k, b)) + One(RecoversAt(steps, k, b)) == Used(d, b) + One(ClaimsAt(steps, k,
          b))
  {
    hide Run, Body, AttemptsOf, Used, ExpiredLeases, Untracked, RequeueCall;
    CommittedStep(steps, k);
    var w, s := At(steps, k), steps[k];
    BodyBalance(w.db, s.call, w.clock + s.wait1, w.clock + s.wait1 + s.wait2, b);
  }

  lemma {:induction false} ClaimBalance(db: Db, owner: Owner, duration: nat, skipped: set<Id>, now1: Time, now2: Time,
        b: Id)
    ensures var t := ClaimBatchTx(db, owner, duration, skipped, now1, now2);
      var n := One(t.reply.BatchWork? && t.reply.batchToken.batch == b);
      AttemptsOf(t.db, b) == AttemptsOf(db, b) + n && Used(t.db, b) == Used(db, b) + n
  {
  }

  lemma {:induction false} RecoveryBalance(db: Db, skipped: set<Id>, now1: Time, now2: Time, b: Id)
    ensures var t := RecoverBatchesTx(db, skipped, now1, now2);
      AttemptsOf(t.db, b) == AttemptsOf(db, b) && Used(t.db, b) + One(b in ExpiredLeases(db, skipped,
          now1)) == Used(db, b)
  {
  }

  lemma {:induction false} RequeueBalance(db: Db, token: BatchToken, code: Code, delay: nat, now: Time, b: Id)
    ensures var t := RequeueBatchTx(db, token, code, delay, now);
      t.Commit? ==> AttemptsOf(t.db, b) == AttemptsOf(db, b) && Used(t.db, b) + One(token.batch == b) == Used(db, b)
  {
  }

  // ----- whole runs -----

  // Every attempt is accounted for: it was requeued, it was recovered, or it is the last one.
  lemma {:induction false} AttemptsBalance(steps: seq<Step>, b: Id)
    ensures var db := Run(steps).db;
      AttemptsOf(db, b) == Claims(steps, b) == Requeues(steps, b) + Recoveries(steps, b) + Used(db, b)
  {
    if steps != [] {
      var n := |steps| - 1;
      AttemptsBalance(steps[..n], b);
      StepBalance(steps, n, b);
      assert steps[..n+1] == steps;
      hide Run, ClaimsAt, RequeuesAt, RecoversAt, Used, AttemptsOf;
    }
  }

  predicate BudgetedBy(steps: seq<Step>, b: Id, max: nat) {
    forall k :: 0 <= k < |steps| && steps[k].call.RetryOrFail? && steps[k].call.batchToken.batch == b ==>
      steps[k].call.maxAttempts <= max
  }

  lemma {:induction false} RequeueUsesTheRowsCount(steps: seq<Step>, k: nat, b: Id)
    requires k < |steps| && RequeuesAt(steps, k, b)
    ensures var db := At(steps, k).db;
      b in db.batches && db.batches[b].status == Processing && db.batches[b].attemptCount < steps[k].call.maxAttempts
  {
    var t := steps[k].call.batchToken;
    HeldTokensAreOld(steps, k, t);
    hide Run;
    SpendingEndsTheClaim(At(steps, k), steps[k]);
  }

  // With every executor at the same maximum or below, RequeueBatch commits at most max - 1 times.
  lemma {:induction false} RequeuesAreBounded(steps: seq<Step>, b: Id, max: nat)
    requires max >= 1 && BudgetedBy(steps, b, max)
    ensures Requeues(steps, b) <= max - 1
  {
    if steps != [] {
      var n := |steps| - 1;
      RequeuesAreBounded(steps[..n], b, max);
      if RequeuesAt(steps, n, b) {
        AttemptsBalance(steps[..n], b);
        RequeueUsesTheRowsCount(steps, n, b);
        hide Run, RequeuesAt, ClaimsAt, RecoversAt;
      }
    }
  }

  // The attempt count may exceed the maximum, but only by as many as leases were lost.
  lemma {:induction false} AttemptsAreBounded(steps: seq<Step>, b: Id, max: nat)
    requires max >= 1 && BudgetedBy(steps, b, max)
    ensures AttemptsOf(Run(steps).db, b) <= max + Recoveries(steps, b)
    ensures Claims(steps, b) <= max + Recoveries(steps, b)
  {
    AttemptsBalance(steps, b);
    RequeuesAreBounded(steps, b, max);
    hide Run, Requeues, Claims, Recoveries, AttemptsOf;
  }

  // ----- when the attempts pass the maximum -----

  lemma {:induction false} AttemptsNeverFall(steps: seq<Step>, i: nat, j: nat, b: Id)
    requires i <= j <= |steps|
    ensures AttemptsOf(At(steps, i).db, b) <= AttemptsOf(At(steps, j).db, b)
  {
    hide Run, AttemptsOf, Used, ClaimsAt, RequeuesAt, RecoversAt;
    if i < j {
      AttemptsNeverFall(steps, i, j - 1, b);
      StepBalance(steps, j - 1, b);
    }
  }

  // A batch that is not in use with max attempts or more got there by a recovery at such a count: a
  // requeue would have been refused.
  lemma {:induction false} IdleWasRecovered(steps: seq<Step>, n: nat, b: Id, max: nat) returns (k: nat)
    requires n <= |steps| && max >= 1 && BudgetedBy(steps, b, max)
    requires Used(At(steps, n).db, b) == 0 && AttemptsOf(At(steps, n).db, b) >= max
    ensures k < n && RecoversAt(steps, k, b) && AttemptsOf(At(steps, k).db, b) >= max
  {
    hide Run, Used, ClaimsAt, RecoversAt, CommitsAt, Body, Next;
    NoAttemptsAtStart(steps, b);
    if n > 0 {
      StepBalance(steps, n - 1, b);
      OneKind(steps, n - 1, b);
      if RequeuesAt(steps, n - 1, b) { RequeueUsesTheRowsCount(steps, n - 1, b); }
      if RecoversAt(steps, n - 1, b) { k := n - 1; } else { k := IdleWasRecovered(steps, n - 1, b, max); }
    }
  }

  lemma {:induction false} OneKind(steps: seq<Step>, k: nat, b: Id)
    requires k < |steps|
    ensures !(ClaimsAt(steps, k, b) && RequeuesAt(steps, k, b)) && !(ClaimsAt(steps, k, b) && RecoversAt(steps, k, b))
    ensures Used(At(steps, k).db, b) <= 1 && Used(At(steps, k + 1).db, b) <= 1
  {
    hide Run, CommitsAt, Body;
  }

  lemma {:induction false} NoAttemptsAtStart(steps: seq<Step>, b: Id)
    ensures AttemptsOf(At(steps, 0).db, b) == 0
  {
    assert steps[..0] == [];
  }

  lemma {:induction false} TheClaimBeyond(steps: seq<Step>, n: nat, b: Id, max: nat) returns (m: nat)
    requires n <= |steps| && AttemptsOf(At(steps, n).db, b) > max
    ensures m < n && ClaimsAt(steps, m, b) && AttemptsOf(At(steps, m).db, b) >= max && Used(At(steps, m).db, b) == 0
  {
    hide Run, ClaimsAt, RecoversAt, RequeuesAt, Used, Body, Next;
    NoAttemptsAtStart(steps, b);
    if n > 0 {
      StepBalance(steps, n - 1, b);
      OneKind(steps, n - 1, b);
      if ClaimsAt(steps, n - 1, b) { m := n - 1; } else { m := TheClaimBeyond(steps, n - 1, b, max); }
    }
  }

  predicate RecoveredUsedUp(steps: seq<Step>, k: nat, b: Id, max: nat)
    requires k < |steps|
  {
    RecoversAt(steps, k, b) && AttemptsOf(At(steps, k).db, b) >= max
  }

  // RecoverBatches never looks at the maximum, and that is the only way past it: a batch's attempts
  // exceed the maximum exactly when a recovery found it used up and a later claim took it again.
  lemma {:induction false} AttemptsPassTheMaximumExactlyWhen(steps: seq<Step>, b: Id, max: nat)
    requires max >= 1 && BudgetedBy(steps, b, max)
    ensures AttemptsOf(Run(steps).db, b) > max <==>
      exists k, m :: 0 <= k < m < |steps| && RecoveredUsedUp(steps, k, b, max) && ClaimsAt(steps, m, b)
  {
    hide Run, AttemptsOf, Used, ClaimsAt, RequeuesAt, RecoversAt;
    assert steps[..|steps|] == steps;
    if AttemptsOf(Run(steps).db, b) > max {
      var m := TheClaimBeyond(steps, |steps|, b, max);
      var k := IdleWasRecovered(steps, m, b, max);
      assert RecoveredUsedUp(steps, k, b, max);
    }
    if k, m :| 0 <= k < m < |steps| && RecoveredUsedUp(steps, k, b, max) && ClaimsAt(steps, m, b) {
      AttemptsNeverFall(steps, k, m, b);
      StepBalance(steps, m, b);
      AttemptsNeverFall(steps, m + 1, |steps|, b);
    }
  }

  // ----- what a retry decides -----

  // A retry that commits, for a transient failure or for an outage of central authorization alike,
  // fails the batch exactly when the batch has been claimed as often as the maximum allows; otherwise
  // the batch is queued again.
  lemma {:induction false} RetryFailsExactlyWhenUsedUp(steps: seq<Step>, k: nat, b: Id)
    requires k < |steps| && CommitsAt(steps, k) && steps[k].call.RetryOrFail? && steps[k].call.batchToken.batch == b
    ensures var db := At(steps, k + 1).db; var max := steps[k].call.maxAttempts;
      b in db.batches && db.batches[b].status in {Queued, BatchStatus.Failed} &&
      (db.batches[b].status == BatchStatus.Failed <==> Claims(steps[..k], b) >= max) &&
      (db.batches[b].status == BatchStatus.Failed ==> db.batches[b].failureCode == Some(RetryExhausted))
  {
    hide Run, BatchSnapshotOk, Claims, Requeues, Recoveries, AttemptsOf, Used, RetryOrFailTx;
    var w, s := At(steps, k), steps[k];
    CommittedStep(steps, k);
    HeldTokensAreOld(steps, k, s.call.batchToken);
    AttemptsBalance(steps[..k], b);
    RetryDecides(w.db, s.call.batchToken, s.call.maxAttempts, s.call.code, s.call.delay, w.clock + s.wait1,
      w.clock + s.wait1 + s.wait2);
  }

  lemma {:induction false} RetryDecides(db: Db, token: BatchToken, max: nat, code: Code, delay: nat, now1: Time,
        now2: Time)
    requires BatchSnapshotOk(db.batches, token)
    ensures var t := RetryOrFailTx(db, token, max, code, delay, now1, now2); var b := token.batch;
      t.Commit? ==> (
        b in t.db.batches && t.db.batches[b].status in {Queued, BatchStatus.Failed} &&
        (t.db.batches[b].status == BatchStatus.Failed <==> AttemptsOf(db, b) >= max) &&
        (t.db.batches[b].status == BatchStatus.Failed ==> t.db.batches[b].failureCode == Some(RetryExhausted)))
  {
    hide FailedItems, FailedOperations, WithOutcome;
  }

  // ----- the backoff is honoured -----

  // A queued row changes only by being claimed, when it is due, or cancelled.
  predicate QueuedTurn(row: Batch, row': Batch, claimed: bool, now: Time) {
    row.status == Queued ==>
      if claimed then row.nextAttemptAt <= now else row' == row || row'.status == Cancelled
  }

  lemma {:induction false} QueuedRowTurn(db: Db, call: Call, now1: Time, now2: Time, b: Id)
    requires b in db.batches
    ensures var t := Body(db, call, now1, now2);
      t.Commit? ==> b in t.db.batches && QueuedTurn(db.batches[b], t.db.batches[b], ClaimsIn(call, t, b), now1)
  {
    if CardCall(call) { CardCallsKeepBatches(db, call, now1, now2); }
    else if ExpiryCall(call) { ExpiryCallsKeepBatches(db, call, now1, now2); }
    else if call.CreateBatch? || call.RetryBatch? { DraftsLeaveRows(db, call, now1, now2, b); }
    else if call.ClaimBatch? { ClaimTurn(db, call.owner, call.duration, call.skipped, now1, now2, b); }
    else { ExecutionTurn(db, call, now1, now2, b); }
  }

  lemma {:induction false} DraftsLeaveRows(db: Db, call: Call, now1: Time, now2: Time, b: Id)
    requires (call.CreateBatch? || call.RetryBatch?) && b in db.batches
    ensures var t := Body(db, call, now1, now2); t.Commit? ==> b in t.db.batches && t.db.batches[b] == db.batches[b]
  {
    hide InsertBatch, MemberCards, Normalize;
    match call
    case CreateBatch(id, target, reason, actor, raw, operations, itemIds) =>
      var r := Normalize(target, reason, raw);
      if r.Some? {
        NewBatchRow(db, id, NewBatch(r.value.target, r.value.reason, actor, |r.value.cards|, None, now1), r.value.cards,
          operations, itemIds);
      }
    case RetryBatch(source, id, actor, operations, itemIds) =>
      if source in db.batches {
        var s := db.batches[source];
        NewBatchRow(db, id, NewBatch(s.target, s.reason, actor, s.itemCount, Some(source), now1), MemberCards(db,
          source),
          operations, itemIds);
      }
  }

  lemma {:induction false} ClaimTurn(db: Db, owner: Owner, duration: nat, skipped: set<Id>, now1: Time, now2: Time,
        b: Id)
    requires b in db.batches
    ensures var t := ClaimBatchTx(db, owner, duration, skipped, now1, now2);
      b in t.db.batches &&
      QueuedTurn(db.batches[b], t.db.batches[b], t.reply.BatchWork? && t.reply.batchToken.batch == b, now1)
  {
  }

  lemma {:induction false} ExecutionTurn(db: Db, call: Call, now1: Time, now2: Time, b: Id)
    requires b in db.batches && !CardCall(call) && !ExpiryCall(call)
    requires !call.CreateBatch? && !call.RetryBatch? && !call.ClaimBatch?
    ensures var t := Body(db, call, now1, now2);
      t.Commit? ==> b in t.db.batches && QueuedTurn(db.batches[b], t.db.batches[b], false, now1)
  {
    hide ApplyRows, LockedRows, AllLegal, FailedItems, FailedOperations, WithOutcome, AppliedAmong;
    match call
    case ExecuteBatch(id) =>
    case CancelBatch(id) =>
    case RecoverBatches(skipped) =>
    case ApplyBatch(token) =>
    case FailBatch(token, code) =>
    case RetryOrFail(token, maxAttempts, code, delay) =>
  }

  lemma {:induction false} QueuedRowStep(steps: seq<Step>, k: nat, b: Id)
    requires k < |steps| && b in At(steps, k).db.batches
    ensures b in At(steps, k + 1).db.batches
    ensures QueuedTurn(At(steps, k).db.batches[b], At(steps, k + 1).db.batches[b], ClaimsAt(steps, k, b),
      At(steps, k).clock + steps[k].wait1)
  {
    hide Run, Body;
    var w, s := At(steps, k), steps[k];
    CommittedStep(steps, k);
    QueuedRowTurn(w.db, s.call, w.clock + s.wait1, w.clock + s.wait1 + s.wait2, b);
  }

  // From a point where the batch is queued until some time, it stays so, or it was cancelled, or it
  // has been claimed at that time or later.
  lemma {:induction false} QueuedUntil(steps: seq<Step>, i: nat, j: nat, b: Id, at: Time)
    requires i <= j <= |steps| && b in At(steps, i).db.batches
    requires At(steps, i).db.batches[b].status == Queued && At(steps, i).db.batches[b].nextAttemptAt == at
    ensures b in At(steps, j).db.batches
    ensures At(steps, j).db.batches[b] == At(steps, i).db.batches[b] ||
      At(steps, j).db.batches[b].status == Cancelled ||
      At(steps, j).clock >= at
  {
    hide Run, Next, Progress, QueuedTurn;
    if i < j {
      QueuedUntil(steps, i, j - 1, b, at);
      RunsGoForward(steps, j - 1, j);
      OneStep(steps, j - 1);
      QueuedRowStep(steps, j - 1, b);
      if At(steps, j - 1).db.batches[b].status == Cancelled { TerminalBatchesAreFrozen(steps, j - 1, j, b); }
      ClockAdvances(At(steps, j - 1), steps[j-1], ClaimsAt(steps, j - 1, b));
      LaterTurn(At(steps, j - 1), steps[j-1], At(steps, j), b, at, ClaimsAt(steps, j - 1, b));
    }
  }

  lemma {:induction false} ClockAdvances(w: World, s: Step, committed: bool)
    requires committed ==> Held(w, s.call)
    ensures committed ==> Next(w, s).clock >= w.clock + s.wait1
  {
  }

  lemma {:induction false} LaterTurn(w: World, s: Step, v: World, b: Id, at: Time, claimed: bool)
    requires b in w.db.batches && b in v.db.batches && w.clock <= v.clock && (claimed ==> v.clock >= w.clock + s.wait1)
    requires QueuedTurn(w.db.batches[b], v.db.batches[b], claimed, w.clock + s.wait1)
    requires w.db.batches[b].status == Queued ==> w.db.batches[b].nextAttemptAt == at || w.clock >= at
    ensures w.db.batches[b].status == Queued ==>
      v.db.batches[b] == w.db.batches[b] || v.db.batches[b].status == Cancelled || v.clock >= at
  {
  }

  // Whoever claims a requeued batch next, and however many executors look, does so only after the
  // delay its requeue asked for.
  lemma {:induction false} BackoffIsHonoured(steps: seq<Step>, k: nat, m: nat, b: Id)
    requires k < m < |steps| && RequeuesAt(steps, k, b) && ClaimsAt(steps, m, b)
    ensures At(steps, m).clock + steps[m].wait1 >= At(steps, k).clock + steps[k].wait1 + steps[k].call.delay
  {
    hide Run, Body;
    RequeuedRow(steps, k, b);
    var at := At(steps, k).clock + steps[k].wait1 + steps[k].call.delay;
    QueuedUntil(steps, k + 1, m, b, at);
    ClaimedRow(steps, m, b);
    QueuedRowStep(steps, m, b);
  }

  lemma {:induction false} RequeuedRow(steps: seq<Step>, k: nat, b: Id)
    requires k < |steps| && RequeuesAt(steps, k, b)
    ensures var w := At(steps, k + 1);
      b in w.db.batches && w.db.batches[b].status == Queued &&
      w.db.batches[b].nextAttemptAt == At(steps, k).clock + steps[k].wait1 + steps[k].call.delay &&
      w.db.batches[b].leaseVersion == steps[k].call.batchToken.leaseVersion &&
      w.db.batches[b].failureCode.Some? && !w.db.batches[b].failureCode.value.Unlisted?
  {
    hide Run;
    CommittedStep(steps, k);
  }

  // ----- a decreasing measure -----

  function MovesLeft(steps: seq<Step>, b: Id, max: nat): int {
    var db := Run(steps).db;
    if b !in db.batches || Terminal(db.batches[b].status) then 0
    else 2 * (max + Recoveries(steps,
        b) - db.batches[b].attemptCount) + (if db.batches[b].status == Processing then 2 else 1)
  }

  lemma {:induction false} MovesLeftIsPositive(steps: seq<Step>, b: Id, max: nat)
    requires max >= 1 && BudgetedBy(steps, b, max)
    requires b in Run(steps).db.batches && !Terminal(Run(steps).db.batches[b].status)
    ensures MovesLeft(steps, b, max) >= 2
  {
    AttemptsBalance(steps, b);
    RequeuesAreBounded(steps, b, max);
    hide Run, Requeues, Claims, Recoveries;
  }

  // Each claim and each committed outcome uses up a move; only a lost lease adds one. So without
  // recoveries a batch ends after finitely many claims.
  lemma {:induction false} MovesRunOut(steps: seq<Step>, k: nat, b: Id, max: nat)
    requires k < |steps| && max >= 1 && BudgetedBy(steps, b, max) && b in At(steps, k).db.batches
    ensures var m, m' := MovesLeft(steps[..k], b, max), MovesLeft(steps[..k+1], b, max);
      m >= 0 && m' >= 0 &&
      (ClaimsAt(steps, k, b) || SpendsAt(steps, k, b) ==> m' < m) &&
      m' <= m + One(RecoversAt(steps, k, b))
  {
    var p := steps[..k+1];
    assert p[..k] == steps[..k];
    StepBalance(steps, k, b);
    RunsGoForward(steps, k, k + 1);
    ClaimedRow(steps, k, b);
    SpentRow(steps, k, b);
    PrefixRecoveries(steps, k, b);
    hide Run;
    assert RowProgress(At(steps, k).db.batches[b], At(steps, k + 1).db.batches[b]);
    if !Terminal(At(steps, k).db.batches[b].status) { MovesLeftIsPositive(steps[..k], b, max); }
    if !Terminal(At(steps, k + 1).db.batches[b].status) { MovesLeftIsPositive(p, b, max); }
    hide Claims, Requeues, Recoveries, ClaimsAt, SpendsAt, RecoversAt, RequeuesAt;
  }

  lemma {:induction false} PrefixRecoveries(steps: seq<Step>, k: nat, b: Id)
    requires k < |steps|
    ensures Recoveries(steps[..k+1], b) == Recoveries(steps[..k], b) + One(RecoversAt(steps, k, b))
  {
    assert steps[..k+1][..k] == steps[..k];
  }

  lemma {:induction false} ClaimedRow(steps: seq<Step>, k: nat, b: Id)
    requires k < |steps|
    ensures ClaimsAt(steps, k, b) ==> b in At(steps, k).db.batches && At(steps, k).db.batches[b].status == Queued
  {
    hide Run, Body;
    if ClaimsAt(steps, k, b) { ClaimBumps(At(steps, k), steps[k], b); }
  }

  lemma {:induction false} SpentRow(steps: seq<Step>, k: nat, b: Id)
    requires k < |steps|
    ensures SpendsAt(steps, k, b) ==>
      b in At(steps, k).db.batches && At(steps, k).db.batches[b].status == Processing &&
      b in At(steps, k + 1).db.batches && At(steps, k + 1).db.batches[b].status != Processing
  {
    hide Run, Body;
    if SpendsAt(steps, k, b) { SpendingEndsTheClaim(At(steps, k), steps[k]); CommittedStep(steps, k); }
  }
}
