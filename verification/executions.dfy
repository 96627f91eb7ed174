// Runs of the whole shard: every writer, any number of workers, stale tokens and lost commits.
module Executions {
  import opened Wrappers
  import opened RowOrder
  import opened Lifecycle
  import opened Tables
  import opened CardTransactions
  import opened DraftRequest
  import opened BatchTransactions
  import opened ExpiryTransactions
  import opened Evidence
  import opened ShardInvariant
  import opened BatchSteps
  import opened BatchOutcomes
  import opened ExpirySteps
  import opened ForwardSteps

  datatype Call =
    | IssueCard(referencesValid: bool, card: Id, operation: Id)
    | CardCommand(card: Id, action: Action, operation: Id, predecessorOperation: Id)
    | ReplaceCard(card: Id, successor: Id, operation: Id)
    | SetExpiry(card: Id, expiresAt: Option<Time>)
    | CreateBatch(id: Id, target: string, reason: string, requestedBy: string, raw: seq<RawId>, operations: seq<Id>,
        itemIds: seq<Id>)
    | ExecuteBatch(id: Id)
    | CancelBatch(id: Id)
    | RetryBatch(source: Id, id: Id, requestedBy: string, operations: seq<Id>, itemIds: seq<Id>)
    | ClaimBatch(owner: Owner, duration: nat, skipped: set<Id>)
    | RecoverBatches(skipped: set<Id>)
    | ApplyBatch(batchToken: BatchToken)
    | FailBatch(batchToken: BatchToken, code: Code)
    | RetryOrFail(batchToken: BatchToken, maxAttempts: nat, code: Code, delay: nat)
    | EnsureExpiryRun(day: Day, skipped: set<Id>, operations: seq<Id>, itemIds: seq<Id>)
    | ClaimExpiryItem(owner: Owner, duration: nat, skipped: set<Id>)
    | RecoverExpiryItems(skipped: set<Id>)
    | ApplyExpiryItem(expiryToken: ExpiryToken)
    | RequeueExpiryItem(expiryToken: ExpiryToken, delay: nat)
    | ManualExpiryRetry(day: Day, item: Id)

  function Body(db: Db, call: Call, now1: Time, now2: Time): Tx {
    match call
    case IssueCard(valid, card, operation) => IssueTx(db, valid, card, operation)
    case CardCommand(card, action, operation, predecessorOperation) => CommandTx(db, card, action, operation,
        predecessorOperation)
    case ReplaceCard(card, successor, operation) => ReplaceTx(db, card, successor, operation)
    case SetExpiry(card, expiresAt) => SetExpiryTx(db, card, expiresAt)
    case CreateBatch(id, target, reason, actor, raw, operations, itemIds) =>
      CreateBatchTx(db, id, target, reason, actor, raw, operations, itemIds, now1)
    case ExecuteBatch(id) => ExecuteBatchTx(db, id, now1)
    case CancelBatch(id) => CancelBatchTx(db, id)
    case RetryBatch(source, id, actor, operations, itemIds) => RetryBatchTx(db, source, id, actor, operations, itemIds,
        now1)
    case ClaimBatch(owner, duration, skipped) => ClaimBatchTx(db, owner, duration, skipped, now1, now2)
    case RecoverBatches(skipped) => RecoverBatchesTx(db, skipped, now1, now2)
    case ApplyBatch(token) => ApplyBatchTx(db, token, now1, now2)
    case FailBatch(token, code) => FailBatchTx(db, token, code, now1, now2)
    case RetryOrFail(token, maxAttempts, code, delay) => RetryOrFailTx(db, token, maxAttempts, code, delay, now1, now2)
    case EnsureExpiryRun(day, skipped, operations, itemIds) => EnsureExpiryRunTx(db, day, skipped, operations, itemIds,
        now1)
    case ClaimExpiryItem(owner, duration, skipped) => ClaimExpiryItemTx(db, owner, duration, skipped, now1, now2)
    case RecoverExpiryItems(skipped) => RecoverExpiryItemsTx(db, skipped, now1, now2)
    case ApplyExpiryItem(token) => ApplyExpiryItemTx(db, token, now1, now2)
    case RequeueExpiryItem(token, delay) => RequeueExpiryItemTx(db, token, delay, now1)
    case ManualExpiryRetry(day, item) => ManualRetryTx(db, day, item, now1)
  }

  // One transaction: time passes before its first guard and before its last, and the connection
  // may fail around the commit.
  datatype Step = Step(call: Call, wait1: nat, wait2: nat, fate: Fate)

  // Tokens that a claim has delivered to some worker; any of them may be presented later.
  datatype World = World(db: Db, clock: Time, batchTokens: set<BatchToken>, expiryTokens: set<ExpiryToken>)

  const START: World := World(EMPTY_DB, 0, {}, {})

  predicate Held(w: World, call: Call) {
    match call
    case ApplyBatch(t) => t in w.batchTokens
    case FailBatch(t, _) => t in w.batchTokens
    case RetryOrFail(t, _, _, _) => t in w.batchTokens
    case ApplyExpiryItem(t) => t in w.expiryTokens
    case RequeueExpiryItem(t, _) => t in w.expiryTokens
    case _ => true
  }

  function TxAt(w: World, s: Step): Tx {
    Body(w.db, s.call, w.clock + s.wait1, w.clock + s.wait1 + s.wait2)
  }

  function Answer(w: World, s: Step): Reply {
    if Held(w, s.call) then Settle(w.db, TxAt(w, s), s.fate).1 else Refused(NotFound)
  }

  function Next(w: World, s: Step): World {
    if !Held(w, s.call) then w
    else
      var r := Answer(w, s);
      World(Settle(w.db, TxAt(w, s), s.fate).0, w.clock + s.wait1 + s.wait2,
        if r.BatchWork? then w.batchTokens + {r.batchToken} else w.batchTokens,
        if r.ExpiryWork? then w.expiryTokens + {r.expiryToken} else w.expiryTokens)
  }

  // The step's transaction reached the database, whether or not its caller heard so.
  predicate Committed(w: World, s: Step) {
    Held(w, s.call) && s.fate != Aborted && TxAt(w, s).Commit?
  }

  function Run(steps: seq<Step>): World {
    if steps == [] then START else Next(Run(steps[..|steps|-1]), steps[|steps|-1])
  }

  function At(steps: seq<Step>, k: nat): World
    requires k <= |steps|
  {
    Run(steps[..k])
  }

  lemma {:induction false} OneStep(steps: seq<Step>, k: nat)
    requires k < |steps|
    ensures At(steps, k + 1) == Next(At(steps, k), steps[k])
  {
    assert steps[..k+1][..k] == steps[..k];
  }

  lemma {:induction false} RunExtends(steps: seq<Step>, s: Step)
    ensures Run(steps + [s]) == Next(Run(steps), s)
  {
    hide Body;
    assert (steps + [s])[..|steps|] == steps;
  }

  // ----- the tokens agree with the rows they were claimed from -----

  predicate BatchSnapshotOk(batches: map<Id, Batch>, t: BatchToken) {
    t.batch in batches &&
    var row := batches[t.batch];
    t.target == row.target && t.reason == row.reason && t.requestedBy == row.requestedBy &&
    t.itemCount == row.itemCount &&
    t.leaseVersion <= row.leaseVersion &&
    (row.status == Processing && row.leaseVersion == t.leaseVersion ==>
      t.attemptCount == row.attemptCount && row.lease.Some? && row.lease.value.owner == t.owner)
  }

  predicate TokensOk(w: World) {
    (forall t :: t in w.batchTokens ==> BatchSnapshotOk(w.db.batches, t)) &&
    (forall t :: t in w.expiryTokens ==> SnapshotOk(w.db.expiryItems, t))
  }

  predicate WorldInv(w: World) {
    Inv(w.db) && TokensOk(w)
  }

  lemma {:induction false} BatchSnapshotStays(batches: map<Id, Batch>, batches': map<Id, Batch>, t: BatchToken)
    requires BatchSnapshotOk(batches, t) && BatchesProgress(batches, batches')
    ensures BatchSnapshotOk(batches', t)
  {
    assert RowProgress(batches[t.batch], batches'[t.batch]);
  }

  lemma {:induction false} ExpirySnapshotStays(items: map<Id, ExpiryItem>, items': map<Id, ExpiryItem>, t: ExpiryToken)
    requires SnapshotOk(items, t) && ExpiryProgress(items, items')
    ensures SnapshotOk(items', t)
  {
    assert ExpiryRowProgress(items[t.item], items'[t.item]);
  }

  lemma {:induction false} SnapshotsStay(w: World, db': Db)
    requires TokensOk(w) && Progress(w.db, db')
    ensures TokensOk(w.(db := db'))
  {
    forall t | t in w.batchTokens ensures BatchSnapshotOk(db'.batches, t) { BatchSnapshotStays(w.db.batches,
        db'.batches, t); }
    forall t | t in w.expiryTokens ensures SnapshotOk(db'.expiryItems, t) {
      ExpirySnapshotStays(w.db.expiryItems, db'.expiryItems, t);
    }
  }

  // ----- every transaction keeps the invariant and goes forward -----

  predicate CardCall(call: Call) {
    call.IssueCard? || call.CardCommand? || call.ReplaceCard? || call.SetExpiry?
  }

  predicate ExpiryCall(call: Call) {
    call.EnsureExpiryRun? || call.ClaimExpiryItem? || call.RecoverExpiryItems? || call.ApplyExpiryItem? ||
    call.RequeueExpiryItem? || call.ManualExpiryRetry?
  }

  lemma {:induction false} CardCallsKeepInv(db: Db, call: Call, now1: Time, now2: Time)
    requires Inv(db) && CardCall(call)
    ensures var t := Body(db, call, now1, now2); t.Commit? ==> Inv(t.db)
  {
    hide Inv;
    match call
    case IssueCard(valid, card, operation) => IssueKeepsInv(db, valid, card, operation);
    case CardCommand(card, action, operation, predecessorOperation) => CommandKeepsInv(db, card, action, operation,
        predecessorOperation);
    case ReplaceCard(card, successor, operation) => ReplaceKeepsInv(db, card, successor, operation);
    case SetExpiry(card, expiresAt) => SetExpiryKeepsInv(db, card, expiresAt);
  }

  lemma {:induction false} BatchCallsKeepInv(db: Db, call: Call, now1: Time, now2: Time)
    requires Inv(db) && !CardCall(call) && !ExpiryCall(call)
    requires (call.ApplyBatch? || call.FailBatch? || call.RetryOrFail?) ==> BatchSnapshotOk(db.batches, call.batchToken)
    ensures var t := Body(db, call, now1, now2); t.Commit? ==> Inv(t.db)
  {
    hide Inv;
    match call
    case CreateBatch(id, target, reason, actor, raw, operations, itemIds) =>
      CreateKeepsInv(db, id, target, reason, actor, raw, operations, itemIds, now1);
    case ExecuteBatch(id) => ExecuteKeepsInv(db, id, now1);
    case CancelBatch(id) => CancelKeepsInv(db, id);
    case RetryBatch(source, id, actor, operations, itemIds) => RetryKeepsInv(db, source, id, actor, operations,
        itemIds, now1);
    case ClaimBatch(owner, duration, skipped) => ClaimKeepsInv(db, owner, duration, skipped, now1, now2);
    case RecoverBatches(skipped) => RecoverKeepsInv(db, skipped, now1, now2);
    case ApplyBatch(token) => ApplyKeepsInv(db, token, now1, now2);
    case FailBatch(token, code) => FailKeepsInv(db, token, code, now1, now2);
    case RetryOrFail(token, maxAttempts, code, delay) =>
      FailKeepsInv(db, token, RetryExhausted, now1, now2);
      RequeueKeepsInv(db, token, code, delay, now1);
  }

  lemma {:induction false} ExpiryCallsKeepInv(db: Db, call: Call, now1: Time, now2: Time)
    requires Inv(db) && ExpiryCall(call)
    requires (call.ApplyExpiryItem? || call.RequeueExpiryItem?) ==> SnapshotOk(db.expiryItems, call.expiryToken)
    ensures var t := Body(db, call, now1, now2); t.Commit? ==> Inv(t.db)
  {
    hide Inv;
    match call
    case EnsureExpiryRun(day, skipped, operations, itemIds) => EnsureKeepsInv(db, day, skipped, operations, itemIds,
        now1);
    case ClaimExpiryItem(owner, duration, skipped) => ClaimItemKeepsInv(db, owner, duration, skipped, now1, now2);
    case RecoverExpiryItems(skipped) => RecoverItemsKeepsInv(db, skipped, now1, now2);
    case ApplyExpiryItem(token) => ApplyItemKeepsInv(db, token, now1, now2);
    case RequeueExpiryItem(token, delay) => RequeueItemKeepsInv(db, token, delay, now1);
    case ManualExpiryRetry(day, item) => ManualRetryKeepsInv(db, day, item, now1);
  }

  lemma {:induction false} CallsKeepInv(w: World, s: Step)
    requires WorldInv(w) && Held(w, s.call)
    ensures var t := TxAt(w, s); t.Commit? ==> Inv(t.db)
  {
    hide Body;
    var now1, now2 := w.clock + s.wait1, w.clock + s.wait1 + s.wait2;
    if CardCall(s.call) { CardCallsKeepInv(w.db, s.call, now1, now2); }
    else if ExpiryCall(s.call) { ExpiryCallsKeepInv(w.db, s.call, now1, now2); }
    else { BatchCallsKeepInv(w.db, s.call, now1, now2); }
  }

  lemma {:induction false} CardAndExpiryCallsProgress(db: Db, call: Call, now1: Time, now2: Time)
    requires CardCall(call) || ExpiryCall(call)
    ensures var t := Body(db, call, now1, now2); t.Commit? ==> Progress(db, t.db)
  {
    hide Progress, InsertCard, CommandTx, HasIssuedReplacement, EnsureExpiryRunTx, ClaimExpiryItemTx,
         RecoverExpiryItemsTx,
         ApplyExpiryItemTx, RequeueExpiryItemTx, ManualRetryTx;
    match call
    case IssueCard(valid, card, operation) => InsertCardProgress(db, card, operation, Issue, None);
    case CardCommand(card, action, operation, predecessorOperation) => CommandProgress(db, card, action, operation,
        predecessorOperation);
    case ReplaceCard(card, successor, operation) => InsertCardProgress(db, successor, operation, Replace, Some(card));
    case SetExpiry(card, expiresAt) => SetExpiryProgress(db, card, expiresAt);
    case EnsureExpiryRun(day, skipped, operations, itemIds) => EnsureProgress(db, day, skipped, operations, itemIds,
        now1);
    case ClaimExpiryItem(owner, duration, skipped) => ClaimItemProgress(db, owner, duration, skipped, now1, now2);
    case RecoverExpiryItems(skipped) => RecoverItemsProgress(db, skipped, now1, now2);
    case ApplyExpiryItem(token) => ApplyItemProgress(db, token, now1, now2);
    case RequeueExpiryItem(token, delay) => RequeueItemProgress(db, token, delay, now1);
    case ManualExpiryRetry(day, item) => ManualRetryProgress(db, day, item, now1);
  }

  lemma {:induction false} BatchCallsProgress(db: Db, call: Call, now1: Time, now2: Time)
    requires !CardCall(call) && !ExpiryCall(call)
    requires EvidenceOk(db) && MembershipOk(db.items)
    ensures var t := Body(db, call, now1, now2); t.Commit? ==> Progress(db, t.db)
  {
    match call
    case CreateBatch(id, target, reason, actor, raw, operations, itemIds) =>
      var r := Normalize(target, reason, raw);
      if r.Some? {
        InsertBatchProgress(db, id, NewBatch(r.value.target, r.value.reason, actor, |r.value.cards|, None, now1),
            r.value.cards, operations, itemIds);
      }
    case ExecuteBatch(id) => ExecuteProgress(db, id, now1);
    case CancelBatch(id) => CancelProgress(db, id);
    case RetryBatch(source, id, actor, operations, itemIds) =>
      if source in db.batches {
        var b := db.batches[source];
        InsertBatchProgress(db, id, NewBatch(b.target, b.reason, actor, b.itemCount, Some(source), now1),
            MemberCards(db, source), operations, itemIds);
      }
    case ClaimBatch(owner, duration, skipped) => ClaimProgress(db, owner, duration, skipped, now1, now2);
    case RecoverBatches(skipped) => RecoverProgress(db, skipped, now1, now2);
    case ApplyBatch(token) => ApplyProgress(db, token, now1, now2);
    case FailBatch(token, code) => FailProgress(db, token, code, now1, now2);
    case RetryOrFail(token, maxAttempts, code, delay) =>
      FailProgress(db, token, RetryExhausted, now1, now2);
      RequeueProgress(db, token, code, delay, now1);
  }

  lemma {:induction false} CallsProgress(w: World, s: Step)
    requires WorldInv(w)
    ensures var t := TxAt(w, s); t.Commit? ==> Progress(w.db, t.db)
  {
    hide Body;
    var now1, now2 := w.clock + s.wait1, w.clock + s.wait1 + s.wait2;
    if CardCall(s.call) || ExpiryCall(s.call) { CardAndExpiryCallsProgress(w.db, s.call, now1, now2); }
    else { BatchCallsProgress(w.db, s.call, now1, now2); }
  }

  predicate DeliversNothing(t: Tx) {
    t.Commit? ==> !t.reply.BatchWork? && !t.reply.ExpiryWork?
  }

  lemma {:induction false} CardAndExpiryCallsDeliverNothing(db: Db, call: Call, now1: Time, now2: Time)
    requires CardCall(call) || (ExpiryCall(call) && !call.ClaimExpiryItem?)
    ensures DeliversNothing(Body(db, call, now1, now2))
  {
    match call
    case IssueCard(valid, card, operation) =>
    case CardCommand(card, action, operation, predecessorOperation) =>
    case ReplaceCard(card, successor, operation) =>
    case SetExpiry(card, expiresAt) =>
    case EnsureExpiryRun(day, skipped, operations, itemIds) =>
      EnsureDeliversNothing(db, day, skipped, operations, itemIds, now1);
    case RecoverExpiryItems(skipped) =>
    case ApplyExpiryItem(token) =>
    case RequeueExpiryItem(token, delay) =>
    case ManualExpiryRetry(day, item) =>
  }

  lemma {:induction false} ScheduleDeliversNothing(db: Db, day: Day, cards: seq<Id>, operations: seq<Id>,
        itemIds: seq<Id>, now: Time)
    requires |cards| <= |operations| && |cards| <= |itemIds|
    ensures DeliversNothing(ScheduleCards(db, day, cards, operations, itemIds, now))
  {
    if cards != [] { ScheduleDeliversNothing(db, day, cards[..|cards|-1], operations, itemIds, now); }
  }

  lemma {:induction false} EnsureDeliversNothing(db: Db, day: Day, skipped: set<Id>, operations: seq<Id>,
        itemIds: seq<Id>, now: Time)
    ensures DeliversNothing(EnsureExpiryRunTx(db, day, skipped, operations, itemIds, now))
  {
    hide ScheduleCards, SelectedCards, OpenRun, ReopenRun, CountRun;
    var begun := OpenRun(db, day);
    var cards := SelectedCards(begun, day, skipped);
    if |cards| <= |operations| && |cards| <= |itemIds| {
      ScheduleDeliversNothing(if cards != [] then ReopenRun(begun, day) else begun, day, cards, operations, itemIds,
          now);
    }
  }

  lemma {:induction false} BatchCallsDeliverNothing(db: Db, call: Call, now1: Time, now2: Time)
    requires !CardCall(call) && !ExpiryCall(call) && !call.ClaimBatch?
    ensures DeliversNothing(Body(db, call, now1, now2))
  {
    match call
    case CreateBatch(id, target, reason, actor, raw, operations, itemIds) =>
      InsertsReplyDone(db, id, target, reason, actor, raw, operations, itemIds, now1);
    case ExecuteBatch(id) =>
    case CancelBatch(id) =>
    case RetryBatch(source, id, actor, operations, itemIds) =>
      RetriesReplyDone(db, source, id, actor, operations, itemIds, now1);
    case RecoverBatches(skipped) =>
    case ApplyBatch(token) =>
    case FailBatch(token, code) =>
    case RetryOrFail(token, maxAttempts, code, delay) =>
  }

  // A claim's token is a snapshot of the row it leaves behind; nothing else delivers tokens.
  lemma {:induction false} NewTokensOk(db: Db, call: Call, now1: Time, now2: Time)
    ensures var t := Body(db, call, now1, now2);
      (t.Commit? && t.reply.BatchWork? ==> call.ClaimBatch? && BatchSnapshotOk(t.db.batches, t.reply.batchToken)) &&
      (t.Commit? && t.reply.ExpiryWork? ==> call.ClaimExpiryItem? && SnapshotOk(t.db.expiryItems, t.reply.expiryToken))
  {
    if call.ClaimBatch? { ClaimDelivers(db, call.owner, call.duration, call.skipped, now1, now2); }
    else if call.ClaimExpiryItem? { ClaimItemDelivers(db, call.owner, call.duration, call.skipped, now1, now2); }
    else if CardCall(call) || ExpiryCall(call) { CardAndExpiryCallsDeliverNothing(db, call, now1, now2); }
    else { BatchCallsDeliverNothing(db, call, now1, now2); }
  }

  lemma {:induction false} ClaimDelivers(db: Db, owner: Owner, duration: nat, skipped: set<Id>, now1: Time, now2: Time)
    ensures var t := ClaimBatchTx(db, owner, duration, skipped, now1, now2);
      (t.reply.BatchWork? ==> BatchSnapshotOk(t.db.batches, t.reply.batchToken)) && !t.reply.ExpiryWork?
  {
  }

  lemma {:induction false} ClaimItemDelivers(db: Db, owner: Owner, duration: nat, skipped: set<Id>, now1: Time,
        now2: Time)
    ensures var t := ClaimExpiryItemTx(db, owner, duration, skipped, now1, now2);
      (t.reply.ExpiryWork? ==> SnapshotOk(t.db.expiryItems, t.reply.expiryToken)) && !t.reply.BatchWork?
  {
  }

  lemma {:induction false} ItemsReplyDone(db: Db, batch: Id, action: Action, cards: seq<Id>, operations: seq<Id>,
        itemIds: seq<Id>)
    requires |cards| == |operations| == |itemIds|
    ensures var t := InsertItems(db, batch, action, cards, operations, itemIds); t.Commit? ==> t.reply == Done
  {
    if cards != [] {
      var n := |cards| - 1;
      ItemsReplyDone(db, batch, action, cards[..n], operations[..n], itemIds[..n]);
    }
  }

  lemma {:induction false} InsertReplyDone(db: Db, id: Id, row: Batch, cards: seq<Id>, operations: seq<Id>,
        itemIds: seq<Id>)
    ensures var t := InsertBatch(db, id, row, cards, operations, itemIds); t.Commit? ==> t.reply == Done
  {
    if |operations| == |cards| == |itemIds| {
      ItemsReplyDone(db.(batches := db.batches[id := row]), id, BatchOperationAction(row.target), cards, operations,
          itemIds);
    }
  }

  lemma {:induction false} InsertsReplyDone(db: Db, id: Id, target: string, reason: string, actor: string,
        raw: seq<RawId>,
        operations: seq<Id>, itemIds: seq<Id>, now: Time)
    ensures var t := CreateBatchTx(db, id, target, reason, actor, raw, operations, itemIds,
        now); t.Commit? ==> t.reply == Done
  {
    var r := Normalize(target, reason, raw);
    if r.Some? {
      InsertReplyDone(db, id, NewBatch(r.value.target, r.value.reason, actor, |r.value.cards|, None, now),
          r.value.cards, operations, itemIds);
    }
  }

  lemma {:induction false} RetriesReplyDone(db: Db, source: Id, id: Id, actor: string, operations: seq<Id>,
        itemIds: seq<Id>, now: Time)
    ensures var t := RetryBatchTx(db, source, id, actor, operations, itemIds, now); t.Commit? ==> t.reply == Done
  {
    if source in db.batches {
      var b := db.batches[source];
      InsertReplyDone(db, id, NewBatch(b.target, b.reason, actor, b.itemCount, Some(source), now), MemberCards(db,
          source), operations, itemIds);
    }
  }

  // What a later world keeps of an earlier one.
  predicate Follows(v: World, w: World) {
    Progress(w.db, v.db) && w.clock <= v.clock && w.batchTokens <= v.batchTokens && w.expiryTokens <= v.expiryTokens
  }

  lemma {:induction false} FollowsIsTransitive(a: World, b: World, c: World)
    requires Follows(b, a) && Follows(c, b)
    ensures Follows(c, a)
  {
    hide Progress;
    ProgressIsTransitive(a.db, b.db, c.db);
  }

  lemma {:induction false} NextKeepsInv(w: World, s: Step)
    requires WorldInv(w)
    ensures WorldInv(Next(w, s)) && Follows(Next(w, s), w)
  {
    hide Body, Inv, Progress, BatchSnapshotOk, SnapshotOk;
    if Committed(w, s) {
      var t := TxAt(w, s);
      CallsKeepInv(w, s);
      CallsProgress(w, s);
      NewTokensOk(w.db, s.call, w.clock + s.wait1, w.clock + s.wait1 + s.wait2);
      SnapshotsStay(w, t.db);
    } else {
      StandingStill(w.db);
    }
  }

  // The invariant holds in every reachable state.
  lemma {:induction false} EveryRunKeepsInv(steps: seq<Step>)
    ensures WorldInv(Run(steps))
  {
    if steps == [] {
      EmptyInv();
    } else {
      EveryRunKeepsInv(steps[..|steps|-1]);
      NextKeepsInv(Run(steps[..|steps|-1]), steps[|steps|-1]);
    }
  }

  // Between any two points of a run the shard only goes forward.
  lemma {:induction false} RunsGoForward(steps: seq<Step>, i: nat, j: nat)
    requires i <= j <= |steps|
    ensures Follows(At(steps, j), At(steps, i))
  {
    hide Run, WorldInv, Follows, Next;
    if i < j {
      RunsGoForward(steps, i, j - 1);
      EveryRunKeepsInv(steps[..j-1]);
      OneStep(steps, j - 1);
      NextKeepsInv(At(steps, j - 1), steps[j-1]);
      FollowsIsTransitive(At(steps, i), At(steps, j - 1), At(steps, j));
    } else {
      FollowsItself(At(steps, i));
    }
  }

  lemma {:induction false} FollowsItself(w: World)
    ensures Follows(w, w)
  {
    StandingStill(w.db);
  }
}
