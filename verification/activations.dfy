// What can make an issued card active, and which of it retires the card's predecessor.
module Activations {
  import opened Wrappers
  import opened RowOrder
  import opened Lifecycle
  import opened Tables
  import opened DraftRequest
  import opened BatchTransactions
  import opened ExpiryTransactions
  import opened BatchRefinement
  import opened ShardInvariant
  import opened Executions
  import opened Fencing
  import opened RunGuarantees
  import opened StepEffects
  import opened RetryBudget

  // From one version of the tables to the next, the card stops being issued and becomes active.
  predicate Activated(db: Db, db': Db, card: Id) {
    card in db.cards && db.cards[card].status == Issued && card in db'.cards && db'.cards[card].status == Active
  }

  predicate ActivatesByCommand(call: Call, card: Id) {
    call.CardCommand? && call.card == card && call.action == Activate
  }

  predicate ActivatesByBatch(db: Db, call: Call, card: Id) {
    call.ApplyBatch? && call.batchToken.target == Active && card in CardsOfBatch(db.items, call.batchToken.batch)
  }

  lemma {:induction false} CardCallActivates(db: Db, call: Call, now1: Time, now2: Time, card: Id)
    requires CardCall(call)
    ensures var t := Body(db, call, now1, now2);
      t.Commit? && Activated(db, t.db, card) ==> ActivatesByCommand(call, card)
  {
  }

  lemma {:induction false} ExpiryCallActivatesNobody(db: Db, call: Call, now1: Time, now2: Time, card: Id)
    requires ExpiryCall(call)
    ensures var t := Body(db, call, now1, now2); t.Commit? ==> !Activated(db, t.db, card)
  {
    hide EnsureExpiryRunTx, RecoverExpiryItemsTx, ApplyExpiryItemTx, DueItems;
    match call
    case EnsureExpiryRun(day, skipped, operations, itemIds) =>
      EnsureKeepsBatchesAndCards(db, day, skipped, operations, itemIds, now1);
    case RecoverExpiryItems(skipped) => RecoveryKeepsBatchesAndCards(db, skipped, now1, now2);
    case ClaimExpiryItem(owner, duration, skipped) =>
    case ApplyExpiryItem(token) => ExpiringActivatesNobody(db, token, now1, now2, card);
    case RequeueExpiryItem(token, delay) =>
    case ManualExpiryRetry(day, item) =>
  }

  lemma {:induction false} ExpiringActivatesNobody(db: Db, token: ExpiryToken, now1: Time, now2: Time, card: Id)
    ensures var t := ApplyExpiryItemTx(db, token, now1, now2); t.Commit? ==> !Activated(db, t.db, card)
  {
    hide SucceedOperation, ResolvedItem, Transition;
  }

  lemma {:induction false} BatchCallActivates(db: Db, call: Call, now1: Time, now2: Time, card: Id)
    requires Ready(db) && !CardCall(call) && !ExpiryCall(call)
    ensures var t := Body(db, call, now1, now2);
      t.Commit? && Activated(db, t.db, card) ==> ActivatesByBatch(db, call, card)
  {
    hide ApplyBatchTx, InsertBatch, MemberCards, Normalize, FailedItems, FailedOperations, WithOutcome, Ready;
    match call
    case CreateBatch(id, target, reason, actor, raw, operations, itemIds) =>
      var r := Normalize(target, reason, raw);
      if r.Some? {
        NewBatchRow(db, id, NewBatch(r.value.target, r.value.reason, actor, |r.value.cards|, None, now1),
          r.value.cards, operations, itemIds);
      }
    case RetryBatch(source, id, actor, operations, itemIds) =>
      if source in db.batches {
        var s := db.batches[source];
        NewBatchRow(db, id, NewBatch(s.target, s.reason, actor, s.itemCount, Some(source), now1),
          MemberCards(db, source), operations, itemIds);
      }
    case ExecuteBatch(id) =>
    case CancelBatch(id) =>
    case ClaimBatch(owner, duration, skipped) =>
    case RecoverBatches(skipped) =>
    case ApplyBatch(token) =>
      ApplyBatchIsAtomic(db, token, now1, now2);
    case FailBatch(token, code) =>
    case RetryOrFail(token, maxAttempts, code, delay) =>
  }

  // An issued card becomes active by its own command or as a member of a batch, and in no other way.
  lemma {:induction false} TwoWaysToActivate(steps: seq<Step>, k: nat, card: Id)
    requires k < |steps| && Activated(At(steps, k).db, At(steps, k + 1).db, card)
    ensures CommitsAt(steps, k)
    ensures ActivatesByCommand(steps[k].call, card) || ActivatesByBatch(At(steps, k).db, steps[k].call, card)
  {
    hide Run, Body, Inv, ActivatesByCommand, ActivatesByBatch;
    CommittedStep(steps, k);
    EveryRunKeepsInv(steps[..k]);
    var w, s := At(steps, k), steps[k];
    var now1, now2 := w.clock + s.wait1, w.clock + s.wait1 + s.wait2;
    if CardCall(s.call) { CardCallActivates(w.db, s.call, now1, now2, card); }
    else if ExpiryCall(s.call) { ExpiryCallActivatesNobody(w.db, s.call, now1, now2, card); }
    else { ReadyInRuns(w.db); BatchCallActivates(w.db, s.call, now1, now2, card); }
  }

  lemma {:induction false} ReadyInRuns(db: Db)
    requires Inv(db)
    ensures Ready(db)
  {
  }

  // The activation of a replacement, whoever does it, leaves the predecessor closed or expired exactly
  // when it is done by command or the predecessor was closed or expired already.
  lemma {:induction false} ActivationRetiresExactlyWhen(steps: seq<Step>, k: nat, card: Id)
    requires k < |steps| && Activated(At(steps, k).db, At(steps, k + 1).db, card)
    requires At(steps, k).db.cards[card].predecessor.Some?
    ensures var p := At(steps, k).db.cards[card].predecessor.value; var d, d' := At(steps, k).db, At(steps, k + 1).db;
      p in d.cards && p in d'.cards &&
      (Final(d'.cards[p].status) <==> steps[k].call.CardCommand? || Final(d.cards[p].status))
  {
    hide Run, CommitsAt, CardsOfBatch;
    TwoWaysToActivate(steps, k, card);
    PredecessorsInEveryRun(steps[..k], card, card);
    if ActivatesByCommand(steps[k].call, card) {
      ActivationRetiresThePredecessor(steps, k);
    } else {
      BatchActivationRetiresNobody(steps, k, card);
    }
  }
}
