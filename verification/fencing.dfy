// Fencing: what becomes of claim tokens, and of finished batches, in every run.
module Fencing {
  import opened RowOrder
  import opened Tables
  import opened BatchTransactions
  import opened ExpiryTransactions
  import opened Evidence
  import opened ShardInvariant
  import opened ExpirySteps
  import opened ForwardSteps
  import opened Executions

  predicate CommitsAt(steps: seq<Step>, k: nat)
    requires k < |steps|
  {
    Committed(At(steps, k), steps[k])
  }

  lemma {:induction false} CommittedStep(steps: seq<Step>, k: nat)
    requires k < |steps|
    ensures CommitsAt(steps, k) ==> At(steps, k + 1).db == TxAt(At(steps, k), steps[k]).db
    ensures !CommitsAt(steps, k) ==> At(steps, k + 1).db == At(steps, k).db
  {
    hide Body, Run;
    OneStep(steps, k);
  }

  // ----- batch tokens -----

  predicate LeasedBatchCall(call: Call) {
    call.ApplyBatch? || call.FailBatch? || call.RetryOrFail?
  }

  // The row has reached this token's claim and moved on from it, or the lease has run out.
  predicate Dead(w: World, t: BatchToken) {
    t.batch in w.db.batches &&
    var row := w.db.batches[t.batch];
    t.leaseVersion <= row.leaseVersion &&
    (row.leaseVersion > t.leaseVersion || row.status != Processing || row.lease.None? ||
     row.lease.value.until <= w.clock)
  }

  // A dead token never comes back to life.
  lemma {:induction false} DeadStaysDead(steps: seq<Step>, i: nat, j: nat, t: BatchToken)
    requires i <= j <= |steps| && Dead(At(steps, i), t)
    ensures Dead(At(steps, j), t)
  {
    hide At;
    RunsGoForward(steps, i, j);
    DeadPersists(At(steps, i), At(steps, j), t);
  }

  lemma {:induction false} DeadPersists(w: World, v: World, t: BatchToken)
    requires Follows(v, w) && Dead(w, t)
    ensures Dead(v, t)
  {
    assert RowProgress(w.db.batches[t.batch], v.db.batches[t.batch]);
  }

  lemma {:induction false} DeadIsRefused(w: World, s: Step)
    requires LeasedBatchCall(s.call) && Dead(w, s.call.batchToken)
    ensures TxAt(w, s) == Rollback(Stale)
  {
  }

  // Whatever its holder tries with it, whenever: the answer is stale and nothing changes.
  lemma {:induction false} DeadTokensChangeNothing(steps: seq<Step>, i: nat, j: nat)
    requires i <= j < |steps| && LeasedBatchCall(steps[j].call) && Dead(At(steps, i), steps[j].call.batchToken)
    ensures !CommitsAt(steps, j) && At(steps, j + 1).db == At(steps, j).db
    ensures steps[j].call.batchToken in At(steps, j).batchTokens && steps[j].fate != Aborted ==>
      Answer(At(steps, j), steps[j]) == Refused(Stale)
  {
    DeadStaysDead(steps, i, j, steps[j].call.batchToken);
    DeadIsRefused(At(steps, j), steps[j]);
    CommittedStep(steps, j);
    hide Run, Body, Dead;
  }

  lemma {:induction false} HeldTokensAreOld(steps: seq<Step>, k: nat, t: BatchToken)
    requires k <= |steps| && t in At(steps, k).batchTokens
    ensures BatchSnapshotOk(At(steps, k).db.batches, t)
  {
    hide Run, Inv;
    EveryRunKeepsInv(steps[..k]);
  }

  // At most one token of a batch is alive.
  lemma {:induction false} LiveTokenIsUnique(steps: seq<Step>, t: BatchToken, u: BatchToken)
    requires t in Run(steps).batchTokens && u in Run(steps).batchTokens && t.batch == u.batch
    requires !Dead(Run(steps), t) && !Dead(Run(steps), u)
    ensures t == u
  {
    hide Run, Inv;
    EveryRunKeepsInv(steps);
    assert BatchSnapshotOk(Run(steps).db.batches, t) && BatchSnapshotOk(Run(steps).db.batches, u);
  }

  predicate ClaimsAt(steps: seq<Step>, k: nat, b: Id)
    requires k < |steps|
  {
    CommitsAt(steps, k) && steps[k].call.ClaimBatch? &&
    var reply := TxAt(At(steps, k), steps[k]).reply; reply.BatchWork? && reply.batchToken.batch == b
  }

  predicate RecoversAt(steps: seq<Step>, k: nat, b: Id)
    requires k < |steps|
  {
    CommitsAt(steps, k) && steps[k].call.RecoverBatches? &&
    b in ExpiredLeases(At(steps, k).db, steps[k].call.skipped, At(steps, k).clock + steps[k].wait1)
  }

  predicate SpendsAt(steps: seq<Step>, k: nat, b: Id)
    requires k < |steps|
  {
    CommitsAt(steps, k) && LeasedBatchCall(steps[k].call) && steps[k].call.batchToken.batch == b
  }

  lemma {:induction false} ClaimBumps(w: World, s: Step, b: Id)
    requires s.call.ClaimBatch?
    requires var t := TxAt(w, s); t.Commit? && t.reply.BatchWork? && t.reply.batchToken.batch == b
    ensures var t := TxAt(w, s);
      b in w.db.batches && b in t.db.batches && w.db.batches[b].status == Queued &&
      t.db.batches[b].leaseVersion == w.db.batches[b].leaseVersion + 1 == t.reply.batchToken.leaseVersion
  {
  }

  lemma {:induction false} RecoveryBumps(w: World, s: Step, b: Id)
    requires s.call.RecoverBatches? && b in ExpiredLeases(w.db, s.call.skipped, w.clock + s.wait1)
    ensures var t := TxAt(w, s);
      t.Commit? && b in t.db.batches && t.db.batches[b].leaseVersion == w.db.batches[b].leaseVersion + 1
  {
  }

  lemma {:induction false} SpendingEndsTheClaim(w: World, s: Step)
    requires LeasedBatchCall(s.call) && TxAt(w, s).Commit?
    ensures var t := TxAt(w, s); var b := s.call.batchToken.batch;
      b in w.db.batches && b in t.db.batches && w.db.batches[b].status == Processing &&
      t.db.batches[b].status != Processing &&
      (!s.call.RetryOrFail? ==> Terminal(t.db.batches[b].status)) &&
      LeaseHeld(w.db, s.call.batchToken, w.clock + s.wait1)
  {
  }

  // A newer claim, a recovery, or any use that commits kills every token of the batch handed out before.
  lemma {:induction false} EveryMoveKillsOlderTokens(steps: seq<Step>, k: nat, t: BatchToken)
    requires k < |steps| && t in At(steps, k).batchTokens
    requires ClaimsAt(steps, k, t.batch) || RecoversAt(steps, k, t.batch) || SpendsAt(steps, k, t.batch)
    ensures Dead(At(steps, k + 1), t)
  {
    HeldTokensAreOld(steps, k, t);
    CommittedStep(steps, k);
    hide Run, Body;
    if ClaimsAt(steps, k, t.batch) { ClaimBumps(At(steps, k), steps[k], t.batch); }
    else if RecoversAt(steps, k, t.batch) { RecoveryBumps(At(steps, k), steps[k], t.batch); }
    else { SpendingEndsTheClaim(At(steps, k), steps[k]); }
  }

  // A claim commits at most one outcome, however often its worker retries: one use of a token rules
  // out every other, also when the first use's acknowledgement was lost.
  lemma {:induction false} TokensAreSpentOnce(steps: seq<Step>, i: nat, j: nat)
    requires i < j < |steps| && LeasedBatchCall(steps[i].call) && LeasedBatchCall(steps[j].call)
    requires steps[i].call.batchToken == steps[j].call.batchToken && CommitsAt(steps, i)
    ensures !CommitsAt(steps, j) && At(steps, j + 1).db == At(steps, j).db
  {
    EveryMoveKillsOlderTokens(steps, i, steps[i].call.batchToken) by { hide Run, Body; }
    DeadTokensChangeNothing(steps, i + 1, j);
  }

  // Any token superseded by a recovery or by a newer claim is refused from then on.
  lemma {:induction false} SupersededTokensChangeNothing(steps: seq<Step>, i: nat, k: nat, j: nat)
    requires i <= k < j < |steps| && LeasedBatchCall(steps[j].call)
    requires steps[j].call.batchToken in At(steps, i).batchTokens
    requires ClaimsAt(steps, k, steps[j].call.batchToken.batch) || RecoversAt(steps, k, steps[j].call.batchToken.batch)
    ensures !CommitsAt(steps, j) && At(steps, j + 1).db == At(steps, j).db
    ensures steps[j].fate != Aborted ==> Answer(At(steps, j), steps[j]) == Refused(Stale)
  {
    hide Run, Body, Dead;
    RunsGoForward(steps, i, k);
    RunsGoForward(steps, i, j);
    hide ClaimsAt, RecoversAt;
    EveryMoveKillsOlderTokens(steps, k, steps[j].call.batchToken);
    DeadTokensChangeNothing(steps, k + 1, j);
  }

  // No two claims of a batch get the same lease version: they grow, acknowledged or not.
  lemma {:induction false} ClaimVersionsGrow(steps: seq<Step>, i: nat, j: nat, b: Id)
    requires i < j < |steps| && ClaimsAt(steps, i, b) && ClaimsAt(steps, j, b)
    ensures TxAt(At(steps, i), steps[i]).reply.batchToken.leaseVersion < TxAt(At(steps, j),
        steps[j]).reply.batchToken.leaseVersion
  {
    hide Run, Body;
    ClaimBumps(At(steps, i), steps[i], b);
    ClaimBumps(At(steps, j), steps[j], b);
    CommittedStep(steps, i);
    RunsGoForward(steps, i + 1, j);
    assert RowProgress(At(steps, i + 1).db.batches[b], At(steps, j).db.batches[b]);
  }

  // Succeeded, failed and cancelled are never left: the row and its items are frozen, and so is
  // all the evidence of those items.
  lemma {:induction false} TerminalBatchesAreFrozen(steps: seq<Step>, i: nat, j: nat, b: Id)
    requires i <= j <= |steps|
    requires b in At(steps, i).db.batches && Terminal(At(steps, i).db.batches[b].status)
    ensures var d, d' := At(steps, i).db, At(steps, j).db;
      b in d'.batches && d'.batches[b] == d.batches[b] &&
      ItemsOfBatch(d'.items, b) == ItemsOfBatch(d.items, b) &&
      (forall x :: x in ItemsOfBatch(d.items, b) ==>
        d'.items[x] == d.items[x] && RowsFor(d'.history, d.items[x].operation) == RowsFor(d.history,
            d.items[x].operation))
  {
    hide Run;
    RunsGoForward(steps, i, j);
    EveryRunKeepsInv(steps[..i]);
    EveryRunKeepsInv(steps[..j]);
    FrozenEvidence(At(steps, i).db, At(steps, j).db, b);
  }

  lemma {:induction false} FrozenEvidence(d: Db, d': Db, b: Id)
    requires EvidenceOk(d) && EvidenceOk(d') && Progress(d, d')
    requires b in d.batches && Terminal(d.batches[b].status)
    ensures b in d'.batches && d'.batches[b] == d.batches[b]
    ensures ItemsOfBatch(d'.items, b) == ItemsOfBatch(d.items, b)
    ensures forall x :: x in ItemsOfBatch(d.items, b) ==>
      d'.items[x] == d.items[x] && RowsFor(d'.history, d.items[x].operation) == RowsFor(d.history, d.items[x].operation)
  {
    assert RowProgress(d.batches[b], d'.batches[b]);
    forall x | x in ItemsOfBatch(d.items, b)
      ensures x in d'.items && d'.items[x] == d.items[x]
      ensures RowsFor(d'.history, d.items[x].operation) == RowsFor(d.history, d.items[x].operation)
    {
      FrozenItem(d, d', x);
    }
  }

  lemma {:induction false} FrozenItem(d: Db, d': Db, x: Id)
    requires EvidenceOk(d) && EvidenceOk(d') && Progress(d, d')
    requires x in d.items && d.items[x].batch in d.batches && Terminal(d.batches[d.items[x].batch].status)
    ensures x in d'.items && d'.items[x] == d.items[x]
    ensures RowsFor(d'.history, d.items[x].operation) == RowsFor(d.history, d.items[x].operation)
  {
    assert ItemOk(d, x) && ItemOk(d', x);
    assert RowProgress(d.batches[d.items[x].batch], d'.batches[d.items[x].batch]);
    hide EvidenceOk, RowsFor, BatchesProgress, ExpiryProgress;
  }

  lemma {:induction false} TerminalBatchesAreLeftAlone(steps: seq<Step>, i: nat, j: nat, b: Id)
    requires i <= j < |steps| && b in At(steps, i).db.batches && Terminal(At(steps, i).db.batches[b].status)
    ensures !SpendsAt(steps, j, b) && !ClaimsAt(steps, j, b) && !RecoversAt(steps, j, b)
  {
    hide Run, Body;
    TerminalBatchesAreFrozen(steps, i, j, b);
    if SpendsAt(steps, j, b) { SpendingEndsTheClaim(At(steps, j), steps[j]); assert false; }
    if ClaimsAt(steps, j, b) { ClaimBumps(At(steps, j), steps[j], b); assert false; }
  }

  // The card effects of a batch commit at most once, whoever presents which token when: after an
  // application or a failure has committed, no further outcome, claim or recovery of it commits.
  lemma {:induction false} EffectsCommitOnce(steps: seq<Step>, i: nat, j: nat, b: Id)
    requires i < j < |steps| && SpendsAt(steps, i, b) && !steps[i].call.RetryOrFail?
    ensures !SpendsAt(steps, j, b) && !ClaimsAt(steps, j, b) && !RecoversAt(steps, j, b)
  {
    hide Run, Body;
    SpendingEndsTheClaim(At(steps, i), steps[i]);
    CommittedStep(steps, i);
    TerminalBatchesAreLeftAlone(steps, i + 1, j, b);
  }

  // ----- expiry tokens -----

  predicate LeasedExpiryCall(call: Call) {
    call.ApplyExpiryItem? || call.RequeueExpiryItem?
  }

  predicate DeadItem(w: World, t: ExpiryToken) {
    t.item in w.db.expiryItems &&
    var row := w.db.expiryItems[t.item];
    t.leaseVersion <= row.leaseVersion &&
    (row.leaseVersion > t.leaseVersion || row.status != ExpProcessing || row.lease.None? ||
     row.lease.value.until <= w.clock)
  }

  lemma {:induction false} DeadItemPersists(w: World, v: World, t: ExpiryToken)
    requires Follows(v, w) && DeadItem(w, t)
    ensures DeadItem(v, t)
  {
    assert ExpiryRowProgress(w.db.expiryItems[t.item], v.db.expiryItems[t.item]);
  }

  lemma {:induction false} DeadItemIsRefused(w: World, s: Step)
    requires LeasedExpiryCall(s.call) && DeadItem(w, s.call.expiryToken)
    ensures TxAt(w, s) == Rollback(Stale)
  {
  }

  lemma {:induction false} DeadItemTokensChangeNothing(steps: seq<Step>, i: nat, j: nat)
    requires i <= j < |steps| && LeasedExpiryCall(steps[j].call) && DeadItem(At(steps, i), steps[j].call.expiryToken)
    ensures !CommitsAt(steps, j) && At(steps, j + 1).db == At(steps, j).db
    ensures steps[j].call.expiryToken in At(steps, j).expiryTokens && steps[j].fate != Aborted ==>
      Answer(At(steps, j), steps[j]) == Refused(Stale)
  {
    hide At;
    RunsGoForward(steps, i, j);
    DeadItemPersists(At(steps, i), At(steps, j), steps[j].call.expiryToken);
    DeadItemIsRefused(At(steps, j), steps[j]);
    CommittedStep(steps, j);
    hide Body, DeadItem;
  }

  predicate ClaimsItemAt(steps: seq<Step>, k: nat, i: Id)
    requires k < |steps|
  {
    CommitsAt(steps, k) && steps[k].call.ClaimExpiryItem? &&
    var reply := TxAt(At(steps, k), steps[k]).reply; reply.ExpiryWork? && reply.expiryToken.item == i
  }

  predicate RecoversItemAt(steps: seq<Step>, k: nat, i: Id)
    requires k < |steps|
  {
    CommitsAt(steps, k) && steps[k].call.RecoverExpiryItems? &&
    i in ExpiredItemLeases(At(steps, k).db, steps[k].call.skipped, At(steps, k).clock + steps[k].wait1)
  }

  predicate SpendsItemAt(steps: seq<Step>, k: nat, i: Id)
    requires k < |steps|
  {
    CommitsAt(steps, k) && LeasedExpiryCall(steps[k].call) && steps[k].call.expiryToken.item == i
  }

  lemma {:induction false} ItemClaimBumps(w: World, s: Step, i: Id)
    requires s.call.ClaimExpiryItem?
    requires var t := TxAt(w, s); t.Commit? && t.reply.ExpiryWork? && t.reply.expiryToken.item == i
    ensures var t := TxAt(w, s);
      i in w.db.expiryItems && i in t.db.expiryItems &&
      t.db.expiryItems[i].leaseVersion == w.db.expiryItems[i].leaseVersion + 1 == t.reply.expiryToken.leaseVersion
  {
  }

  lemma {:induction false} RecoveryTable(db: Db, skipped: set<Id>, now1: Time, now2: Time)
    ensures RecoverExpiryItemsTx(db, skipped, now1, now2).Commit?
    ensures RecoverExpiryItemsTx(db, skipped, now1, now2).db.expiryItems ==
      RecoveredItems(db, ExpiredItemLeases(db, skipped, now1), now2)
  {
    hide CompleteRuns, DaysOf, RecoveredItem, CompleteRun;
    var lost := ExpiredItemLeases(db, skipped, now1);
    CompleteAllChangesRunsOnly(db.(expiryItems := RecoveredItems(db, lost, now2)), DaysOf(db, Ordered(ById(lost))));
  }

  lemma {:induction false} ItemRecoveryBumps(w: World, s: Step, i: Id)
    requires s.call.RecoverExpiryItems? && i in ExpiredItemLeases(w.db, s.call.skipped, w.clock + s.wait1)
    ensures var t := TxAt(w, s);
      t.Commit? && i in t.db.expiryItems && t.db.expiryItems[i].leaseVersion == w.db.expiryItems[i].leaseVersion + 1
  {
    hide RecoverExpiryItemsTx, RecoveredItems, ExpiredItemLeases;
    var now1, now2 := w.clock + s.wait1, w.clock + s.wait1 + s.wait2;
    RecoveryTable(w.db, s.call.skipped, now1, now2);
    LapsedItemsExist(w.db, s.call.skipped, now1, i);
    RecoveredRow(w.db, ExpiredItemLeases(w.db, s.call.skipped, now1), now2, i);
  }

  lemma {:induction false} RecoveredRow(db: Db, lost: set<Id>, now: Time, i: Id)
    requires i in lost && i in db.expiryItems
    ensures i in RecoveredItems(db, lost, now) &&
      RecoveredItems(db, lost, now)[i].leaseVersion == db.expiryItems[i].leaseVersion + 1
  {
  }

  lemma {:induction false} LapsedItemsExist(db: Db, skipped: set<Id>, now: Time, i: Id)
    requires i in ExpiredItemLeases(db, skipped, now)
    ensures i in db.expiryItems
  {
  }

  lemma {:induction false} SpendingEndsTheItemClaim(w: World, s: Step)
    requires LeasedExpiryCall(s.call) && TxAt(w, s).Commit?
    ensures var t := TxAt(w, s); var i := s.call.expiryToken.item;
      i in w.db.expiryItems && i in t.db.expiryItems && w.db.expiryItems[i].status == ExpProcessing &&
      t.db.expiryItems[i].status != ExpProcessing &&
      t.db.expiryItems[i].leaseVersion == w.db.expiryItems[i].leaseVersion
  {
    hide SucceedOperation, CompletedRun, HasUnresolved;
  }

  lemma {:induction false} EveryMoveKillsOlderItemTokens(steps: seq<Step>, k: nat, t: ExpiryToken)
    requires k < |steps| && t in At(steps, k).expiryTokens
    requires ClaimsItemAt(steps, k, t.item) || RecoversItemAt(steps, k, t.item) || SpendsItemAt(steps, k, t.item)
    ensures DeadItem(At(steps, k + 1), t)
  {
    EveryRunKeepsInv(steps[..k]);
    assert SnapshotOk(At(steps, k).db.expiryItems, t);
    hide Run, Body, Inv;
    CommittedStep(steps, k);
    if ClaimsItemAt(steps, k, t.item) { ItemClaimBumps(At(steps, k), steps[k], t.item); }
    else if RecoversItemAt(steps, k, t.item) { ItemRecoveryBumps(At(steps, k), steps[k], t.item); }
    else { SpendingEndsTheItemClaim(At(steps, k), steps[k]); }
  }

  // One claim of an expiry item is one attempt: it is applied once, or requeued once, never both.
  lemma {:induction false} ItemTokensAreSpentOnce(steps: seq<Step>, i: nat, j: nat)
    requires i < j < |steps| && LeasedExpiryCall(steps[i].call) && LeasedExpiryCall(steps[j].call)
    requires steps[i].call.expiryToken == steps[j].call.expiryToken && CommitsAt(steps, i)
    ensures !CommitsAt(steps, j) && At(steps, j + 1).db == At(steps, j).db
  {
    EveryMoveKillsOlderItemTokens(steps, i, steps[i].call.expiryToken) by { hide Run, Body; }
    DeadItemTokensChangeNothing(steps, i + 1, j);
  }

  lemma {:induction false} SupersededItemTokensChangeNothing(steps: seq<Step>, i: nat, k: nat, j: nat)
    requires i <= k < j < |steps| && LeasedExpiryCall(steps[j].call)
    requires steps[j].call.expiryToken in At(steps, i).expiryTokens
    requires ClaimsItemAt(steps, k, steps[j].call.expiryToken.item) || RecoversItemAt(steps, k,
        steps[j].call.expiryToken.item)
    ensures !CommitsAt(steps, j) && At(steps, j + 1).db == At(steps, j).db
    ensures steps[j].fate != Aborted ==> Answer(At(steps, j), steps[j]) == Refused(Stale)
  {
    hide Run, Body, DeadItem;
    RunsGoForward(steps, i, k);
    RunsGoForward(steps, i, j);
    hide ClaimsItemAt, RecoversItemAt;
    EveryMoveKillsOlderItemTokens(steps, k, steps[j].call.expiryToken);
    DeadItemTokensChangeNothing(steps, k + 1, j);
  }
}
