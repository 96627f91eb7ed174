// What the leased execution of batches leaves behind, and how long a claim lives.
module LeaseEffects {
  import opened Wrappers
  import opened RowOrder
  import opened Lifecycle
  import opened Tables
  import opened BatchTransactions
  import opened BatchRefinement
  import opened ShardInvariant
  import opened Executions
  import opened Fencing
  import opened RetryBudget

  // ----- recovery -----

  // The lease of a row in progress has run out.
  predicate Lapsed(row: Batch, now: Time) {
    row.status == Processing && row.lease.Some? && row.lease.value.until <= now
  }

  // Recovery changes exactly the rows in progress whose lease has run out, of those not locked
  // elsewhere: they are queued again, due at once, under a new lease version. The answer counts them.
  lemma {:induction false} RecoveryTakesTheLapsed(db: Db, skipped: set<Id>, now1: Time, now2: Time)
    ensures var t := RecoverBatchesTx(db, skipped, now1, now2);
      t.Commit? && t.db == db.(batches := t.db.batches) && t.db.batches.Keys == db.batches.Keys &&
      t.reply == Count(|set b | b in db.batches && b !in skipped && Lapsed(db.batches[b], now1)|) &&
      forall b :: b in db.batches ==>
        (t.db.batches[b] != db.batches[b] <==> b !in skipped && Lapsed(db.batches[b], now1)) &&
        (t.db.batches[b] != db.batches[b] ==>
          t.db.batches[b] == db.batches[b].(status := Queued, lease := None,
            leaseVersion := db.batches[b].leaseVersion + 1, nextAttemptAt := now2))
  {
    assert ExpiredLeases(db, skipped, now1) ==
      set b | b in db.batches && b !in skipped && Lapsed(db.batches[b], now1);
  }

  // ----- outcomes -----

  // The token's claim is the current one and its lease has not run out.
  predicate Holds(db: Db, token: BatchToken, now: Time) {
    token.batch in db.batches &&
    var row := db.batches[token.batch];
    row.status == Processing && row.leaseVersion == token.leaseVersion && row.lease.Some? &&
    row.lease.value.owner == token.owner && now < row.lease.value.until
  }

  // No card of the batch has to leave the graph for the target.
  predicate MayAllMove(db: Db, batch: Id, target: Status) {
    forall i :: i in db.items && db.items[i].batch == batch && db.items[i].card in db.cards ==>
      db.cards[db.items[i].card].status == target || Legal(db.cards[db.items[i].card].status, target)
  }

  // An application commits exactly when the claim holds at both guards and every card may move.
  lemma {:induction false} ApplyingIsAnswered(steps: seq<Step>, k: nat)
    requires k < |steps| && steps[k].call.ApplyBatch? && steps[k].call.batchToken in At(steps, k).batchTokens
    ensures var w, s, token := At(steps, k), steps[k], steps[k].call.batchToken;
      var moves := MayAllMove(w.db, token.batch, token.target);
      var first, last := Holds(w.db, token, w.clock + s.wait1), Holds(w.db, token, w.clock + s.wait1 + s.wait2);
      (CommitsAt(steps, k) <==> s.fate != Aborted && first && moves && last) &&
      (s.fate == Acknowledged && first && moves && last ==> Answer(w, s) == Done) &&
      (s.fate != Aborted && first && !moves ==> Answer(w, s) == Refused(InvalidTransition)) &&
      (s.fate != Aborted && (!first || (moves && !last)) ==> Answer(w, s) == Refused(Stale))
  {
    hide Run, Inv, Ready, ApplyBatchTx, MayAllMove, Holds, TokensOk;
    EveryRunKeepsInv(steps[..k]);
    var w, s, token := At(steps, k), steps[k], steps[k].call.batchToken;
    ReadyByInv(w.db);
    ApplyingCommits(w.db, token, w.clock + s.wait1, w.clock + s.wait1 + s.wait2);
  }

  lemma {:induction false} ReadyByInv(db: Db)
    requires Inv(db)
    ensures Ready(db)
  {
  }

  lemma {:induction false} ApplyingCommits(db: Db, token: BatchToken, now1: Time, now2: Time)
    requires Ready(db)
    ensures var t := ApplyBatchTx(db, token, now1, now2);
      if !Holds(db, token, now1) then t == Rollback(Stale)
      else if !MayAllMove(db, token.batch, token.target) then t == Rollback(InvalidTransition)
      else if !Holds(db, token, now2) then t == Rollback(Stale)
      else t.Commit? && t.reply == Done
  {
    hide ApplyBatchTx, AppliedAtOnce, Ready, WithOutcome;
    ApplyBatchIsAtomic(db, token, now1, now2);
  }

  predicate QueuedFor(db: Db, operation: Id, batch: Id) {
    operation in db.operations && db.operations[operation].status == OpQueued &&
    exists i :: i in db.items && db.items[i].batch == batch && db.items[i].operation == operation
  }

  function Reported(code: Code): Code {
    if code in {AuthorizationRevoked, RetryExhausted, TransitionRejected, ControlUnavailable} then code
    else DependencyUnavailable
  }

  // A failure commits exactly when the claim holds at both guards. It closes the row with the code, or
  // with the general one when the code is not listed, fails the batch's queued operations, and moves no
  // card.
  lemma {:induction false} FailingClosesTheBatch(db: Db, token: BatchToken, code: Code, now1: Time, now2: Time)
    ensures var t := FailBatchTx(db, token, code, now1, now2); var b := token.batch;
      if !Holds(db, token, now1) || !Holds(db, token, now2) then t == Rollback(Stale)
      else
        t.Commit? && t.reply == Done && b in t.db.batches &&
        t.db == db.(batches := t.db.batches, items := t.db.items, operations := t.db.operations) &&
        t.db.batches == db.batches[b := db.batches[b].(status := BatchStatus.Failed, appliedCount := 0,
          ignoredCount := t.db.batches[b].ignoredCount, failureCode := Some(Reported(code)), lease := None)] &&
        t.db.operations.Keys == db.operations.Keys && t.db.items.Keys == db.items.Keys &&
        (forall o :: o in db.operations ==>
          t.db.operations[o] ==
            if QueuedFor(db, o, b) then db.operations[o].(status := OpFailed) else db.operations[o]) &&
        forall i :: i in db.items && db.items[i].batch != b ==> t.db.items[i] == db.items[i]
  {
    hide WithOutcome;
    forall o | o in db.operations
      ensures QueuedFor(db, o, token.batch) <==>
        db.operations[o].status == OpQueued && OperationOfBatch(db, o, token.batch)
    {
    }
  }

  // A retry with attempts left requeues exactly when the claim holds: the row alone changes, due after
  // the delay. Without attempts left it is a failure with the exhausted code.
  lemma {:induction false} RetryingRequeuesOrFails(db: Db, token: BatchToken, maxAttempts: nat, code: Code,
        delay: nat, now1: Time,
        now2: Time)
    ensures var t := RetryOrFailTx(db, token, maxAttempts, code, delay, now1, now2); var b := token.batch;
      if token.attemptCount >= maxAttempts then t == FailBatchTx(db, token, RetryExhausted, now1, now2)
      else if !Holds(db, token, now1) then t == Rollback(Stale)
      else
        t == Commit(db.(batches := db.batches[b := db.batches[b].(status := Queued, lease := None,
          nextAttemptAt := now1 + delay, failureCode := Some(Reported(code)))]), Done)
  {
    hide FailBatchTx;
  }

  // ----- every move of a batch has its call -----

  // A row stays as it is, or moves in one of these ways, each by its own call.
  predicate RowTurn(row: Batch, row': Batch, call: Call, b: Id, now: Time) {
    match (row.status, row'.status)
    case (Draft, Queued) => call == ExecuteBatch(b)
    case (Draft, Cancelled) => call == CancelBatch(b)
    case (Queued, Cancelled) => call == CancelBatch(b)
    case (Queued, Processing) => call.ClaimBatch? && b !in call.skipped && row.nextAttemptAt <= now
    case (Processing, Queued) => (call.RecoverBatches? && b !in call.skipped && Lapsed(row, now)) ||
      (call.RetryOrFail? && call.batchToken.batch == b && call.batchToken.attemptCount < call.maxAttempts)
    case (Processing, Succeeded) => call.ApplyBatch? && call.batchToken.batch == b
    case (Processing, Failed) => (call.FailBatch? && call.batchToken.batch == b) ||
      (call.RetryOrFail? && call.batchToken.batch == b && call.batchToken.attemptCount >= call.maxAttempts)
    case _ => row' == row
  }

  lemma {:induction false} CallTurnsRow(db: Db, call: Call, now1: Time, now2: Time, b: Id)
    requires b in db.batches
    ensures var t := Body(db, call, now1, now2);
      t.Commit? ==> b in t.db.batches && RowTurn(db.batches[b], t.db.batches[b], call, b, now1)
  {
    if CardCall(call) { CardCallsKeepBatches(db, call, now1, now2); }
    else if ExpiryCall(call) { ExpiryCallsKeepBatches(db, call, now1, now2); }
    else if call.CreateBatch? || call.RetryBatch? { DraftsLeaveRows(db, call, now1, now2, b); }
    else if LeasedBatchCall(call) { OutcomeTurnsRow(db, call, now1, now2, b); }
    else { QueueTurnsRow(db, call, now1, now2, b); }
  }

  lemma {:induction false} OutcomeTurnsRow(db: Db, call: Call, now1: Time, now2: Time, b: Id)
    requires b in db.batches && LeasedBatchCall(call)
    ensures var t := Body(db, call, now1, now2);
      t.Commit? ==> b in t.db.batches && RowTurn(db.batches[b], t.db.batches[b], call, b, now1)
  {
    hide ApplyRows, LockedRows, AllLegal, FailedItems, FailedOperations, WithOutcome, AppliedAmong;
  }

  lemma {:induction false} QueueTurnsRow(db: Db, call: Call, now1: Time, now2: Time, b: Id)
    requires b in db.batches
    requires call.ExecuteBatch? || call.CancelBatch? || call.ClaimBatch? || call.RecoverBatches?
    ensures var t := Body(db, call, now1, now2);
      t.Commit? ==> b in t.db.batches && RowTurn(db.batches[b], t.db.batches[b], call, b, now1)
  {
    hide ClaimBatchTx, RecoverBatchesTx;
    match call
    case ExecuteBatch(id) =>
    case CancelBatch(id) =>
    case ClaimBatch(owner, duration, skipped) => ClaimTurnsRow(db, owner, duration, skipped, now1, now2, b);
    case RecoverBatches(skipped) => RecoveryTakesTheLapsed(db, skipped, now1, now2);
  }

  lemma {:induction false} ClaimTurnsRow(db: Db, owner: Owner, duration: nat, skipped: set<Id>, now1: Time,
        now2: Time, b: Id)
    requires b in db.batches
    ensures var t := ClaimBatchTx(db, owner, duration, skipped, now1, now2);
      b in t.db.batches &&
      RowTurn(db.batches[b], t.db.batches[b], ClaimBatch(owner, duration, skipped), b, now1)
  {
  }

  // In every run a batch's row changes only with its status, and every move of the status has its call.
  lemma {:induction false} EveryMoveHasItsCall(steps: seq<Step>, k: nat, b: Id)
    requires k < |steps| && b in At(steps, k).db.batches
    ensures b in At(steps, k + 1).db.batches
    ensures RowTurn(At(steps, k).db.batches[b], At(steps, k + 1).db.batches[b], steps[k].call, b,
      At(steps, k).clock + steps[k].wait1)
    ensures At(steps, k + 1).db.batches[b] != At(steps, k).db.batches[b] ==> CommitsAt(steps, k)
  {
    hide Run, Body;
    var w, s := At(steps, k), steps[k];
    CommittedStep(steps, k);
    CallTurnsRow(w.db, s.call, w.clock + s.wait1, w.clock + s.wait1 + s.wait2, b);
  }

  // ----- how long a claim lives -----

  predicate UsesAt(steps: seq<Step>, k: nat, t: BatchToken)
    requires k < |steps|
  {
    CommitsAt(steps, k) && LeasedBatchCall(steps[k].call) && steps[k].call.batchToken == t
  }

  predicate UsedBetween(steps: seq<Step>, i: nat, j: nat, t: BatchToken)
    requires j <= |steps|
  {
    exists k :: i <= k < j && UsesAt(steps, k, t)
  }

  predicate AliveUntil(w: World, t: BatchToken, until: Time) {
    t.batch in w.db.batches &&
    var row := w.db.batches[t.batch];
    row.status == Processing && row.leaseVersion == t.leaseVersion && row.lease == Some(Lease(t.owner, until)) &&
    w.clock < until
  }

  // Only a live token of the batch commits an outcome, and there is no other live one.
  lemma {:induction false} OnlyItsOwnUse(steps: seq<Step>, k: nat, t: BatchToken)
    requires k < |steps| && t in At(steps, k).batchTokens && !Dead(At(steps, k), t)
    requires CommitsAt(steps, k) && LeasedBatchCall(steps[k].call) && steps[k].call.batchToken.batch == t.batch
    ensures UsesAt(steps, k, t)
  {
    hide Run, Body, LeaseHeld;
    var u := steps[k].call.batchToken;
    if Dead(At(steps, k), u) { DeadIsRefused(At(steps, k), steps[k]); }
    if !Dead(At(steps, k), u) { LiveTokenIsUnique(steps[..k], t, u); }
  }

  lemma {:induction false} AliveIsNotDead(w: World, t: BatchToken, until: Time)
    requires AliveUntil(w, t, until)
    ensures !Dead(w, t)
  {
  }

  lemma {:induction false} AliveStep(steps: seq<Step>, k: nat, t: BatchToken, until: Time)
    requires k < |steps| && t in At(steps, k).batchTokens && AliveUntil(At(steps, k), t, until)
    ensures if UsesAt(steps, k, t) || At(steps, k + 1).clock >= until then Dead(At(steps, k + 1), t)
      else AliveUntil(At(steps, k + 1), t, until)
  {
    hide Run, Body;
    var w, v, s := At(steps, k), At(steps, k + 1), steps[k];
    AliveIsNotDead(w, t, until);
    EveryMoveHasItsCall(steps, k, t.batch);
    OneStep(steps, k);
    CommittedStep(steps, k);
    if UsesAt(steps, k, t) {
      EveryMoveKillsOlderTokens(steps, k, t);
    } else {
      if CommitsAt(steps, k) && LeasedBatchCall(s.call) && s.call.batchToken.batch == t.batch {
        OnlyItsOwnUse(steps, k, t);
      }
      ClockAdvances(w, s, CommitsAt(steps, k));
      if v.db.batches[t.batch] != w.db.batches[t.batch] {
        RunsGoForward(steps, k, k + 1);
      }
    }
  }

  // The life of a claim, exactly: from a point where a delivered token is alive, it stays alive until
  // its lease time or its own committed use, whichever comes first. Nobody else ends it.
  lemma {:induction false} ClaimsLiveTheirLease(steps: seq<Step>, i: nat, j: nat, t: BatchToken, until: Time)
    requires i <= j <= |steps| && t in At(steps, i).batchTokens && AliveUntil(At(steps, i), t, until)
    ensures t in At(steps, j).batchTokens
    ensures if At(steps, j).clock < until && !UsedBetween(steps, i, j, t) then AliveUntil(At(steps, j), t, until)
      else Dead(At(steps, j), t)
  {
    hide Run, Next, AliveUntil, Dead, UsesAt, UsedBetween;
    if i < j {
      ClaimsLiveTheirLease(steps, i, j - 1, t, until);
      RunsGoForward(steps, j - 1, j);
      UsedOneMore(steps, i, j, t);
      if At(steps, j - 1).clock < until && !UsedBetween(steps, i, j - 1, t) {
        AliveStep(steps, j - 1, t, until);
      } else {
        DeadStaysDead(steps, j - 1, j, t);
      }
    } else {
      NotUsedYet(steps, i, t);
      AliveIsBefore(At(steps, i), t, until);
    }
  }

  lemma {:induction false} UsedOneMore(steps: seq<Step>, i: nat, j: nat, t: BatchToken)
    requires i < j <= |steps|
    ensures UsedBetween(steps, i, j, t) <==> UsedBetween(steps, i, j - 1, t) || UsesAt(steps, j - 1, t)
  {
    hide UsesAt;
  }

  lemma {:induction false} NotUsedYet(steps: seq<Step>, i: nat, t: BatchToken)
    requires i <= |steps|
    ensures !UsedBetween(steps, i, i, t)
  {
  }

  lemma {:induction false} AliveIsBefore(w: World, t: BatchToken, until: Time)
    requires AliveUntil(w, t, until)
    ensures w.clock < until
  {
  }

  // Every claim that is heard of starts such a life, of the length it asked for.
  lemma {:induction false} ClaimsStartAlive(steps: seq<Step>, k: nat)
    requires k < |steps| && steps[k].call.ClaimBatch? && steps[k].call.duration > 0
    requires Answer(At(steps, k), steps[k]).BatchWork?
    ensures var t := Answer(At(steps, k), steps[k]).batchToken; var v := At(steps, k + 1);
      t in v.batchTokens && t.owner == steps[k].call.owner && AliveUntil(v, t, v.clock + steps[k].call.duration)
  {
    hide Run;
    OneStep(steps, k);
  }
}
