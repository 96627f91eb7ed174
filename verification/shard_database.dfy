// The shard's store as an object: each store method is one transaction that works on its own copy
// of the tables and then commits it, drops it, or commits it without the caller hearing so.
module ShardDatabase {
  import opened Wrappers
  import opened RowOrder
  import opened Lifecycle
  import opened Tables
  import opened CardTransactions
  import opened DraftRequest
  import opened BatchTransactions
  import opened ExpiryTransactions
  import opened Executions

  class Shard {
    var committed: Db
    var clock: Time

    // What workers have been handed.
    var batchTokens: set<BatchToken>
    var expiryTokens: set<ExpiryToken>

    // What has happened so far.
    ghost var steps: seq<Step>

    function Now(): World
      reads this
    {
      World(committed, clock, batchTokens, expiryTokens)
    }

    // The object is always where the run of its steps leads, so what is proved of runs holds of it.
    ghost predicate Valid()
      reads this
    {
      Now() == Run(steps)
    }

    twostate predicate Performed(call: Call, wait1: nat, wait2: nat, fate: Fate, reply: Reply)
      reads this
    {
      Valid() && steps == old(steps) + [Step(call, wait1, wait2, fate)] &&
      (committed, reply) == Settle(old(committed), Body(old(committed), call, old(clock) + wait1,
          old(clock) + wait1 + wait2), fate)
    }

    constructor ()
      ensures Valid() && committed == EMPTY_DB && clock == 0 && steps == []
    {
      committed, clock := EMPTY_DB, 0;
      batchTokens, expiryTokens, steps := {}, {}, [];
    }

    // How every transaction ends.
    method Finish(ghost call: Call, wait1: nat, wait2: nat, fate: Fate, outcome: Tx) returns (reply: Reply)
      requires Valid() && Held(Now(), call)
      requires outcome == Body(committed, call, clock + wait1, clock + wait1 + wait2)
      modifies this
      ensures Performed(call, wait1, wait2, fate, reply)
    {
      hide Body, Held, Run;
      ghost var before, s := Now(), Step(call, wait1, wait2, fate);
      if fate.Aborted? {
        reply := Refused(ConnectionLost);
      } else if outcome.Rollback? {
        reply := Refused(outcome.error);
      } else {
        committed := outcome.db;
        reply := if fate.Acknowledged? then outcome.reply else Refused(ConnectionLost);
      }
      clock := clock + wait1 + wait2;
      batchTokens := if reply.BatchWork? then batchTokens + {reply.batchToken} else batchTokens;
      expiryTokens := if reply.ExpiryWork? then expiryTokens + {reply.expiryToken} else expiryTokens;
      assert Now() == Next(before, s);
      RunExtends(steps, s);
      steps := steps + [s];
    }

    // Some other caller's transaction, whichever it is. A token that nobody was handed is not presented.
    method Perform(s: Step)
      requires Valid()
      modifies this
      ensures Valid() && steps == old(steps) + [s]
    {
      hide Body, Held, Run, Settle;
      if Held(Now(), s.call) {
        var outcome := Body(committed, s.call, clock + s.wait1, clock + s.wait1 + s.wait2);
        var reply := Finish(s.call, s.wait1, s.wait2, s.fate, outcome);
      } else {
        RunExtends(steps, s);
        steps := steps + [s];
      }
    }

    method Meanwhile(others: seq<Step>)
      requires Valid()
      modifies this
      ensures Valid() && steps == old(steps) + others
    {
      hide Run;
      for k := 0 to |others|
        invariant Valid() && steps == old(steps) + others[..k]
      {
        Perform(others[k]);
      }
      assert others[..|others|] == others;
    }

    // ----- card workflows -----

    method IssueCard(referencesValid: bool, card: Id, operation: Id, wait1: nat, wait2: nat,
          fate: Fate) returns (reply: Reply)
      requires Valid()
      modifies this
      ensures Performed(Call.IssueCard(referencesValid, card, operation), wait1, wait2, fate, reply)
    {
      var outcome := Rollback(InvalidReference);
      if referencesValid { outcome := InsertCard(committed, card, operation, Issue, None); }
      reply := Finish(Call.IssueCard(referencesValid, card, operation), wait1, wait2, fate, outcome);
    }

    method ReplaceCard(card: Id, successor: Id, operation: Id, wait1: nat, wait2: nat,
          fate: Fate) returns (reply: Reply)
      requires Valid()
      modifies this
      ensures Performed(Call.ReplaceCard(card, successor, operation), wait1, wait2, fate, reply)
    {
      var outcome := Rollback(NotFound);
      if card in committed.cards {
        var state := committed.cards[card];
        if state.status != Active && state.status != Suspended {
          outcome := Rollback(InvalidTransition);
        } else if HasIssuedReplacement(committed, card) {
          outcome := Rollback(Error.ReplacementPending);
        } else {
          outcome := InsertCard(committed, successor, operation, Replace, Some(card));
        }
      }
      reply := Finish(Call.ReplaceCard(card, successor, operation), wait1, wait2, fate, outcome);
    }

    method CardCommand(card: Id, action: Action, operation: Id, predecessorOperation: Id, wait1: nat, wait2: nat,
          fate: Fate)
      returns (reply: Reply)
      requires Valid()
      modifies this
      ensures Performed(Call.CardCommand(card, action, operation, predecessorOperation), wait1, wait2, fate, reply)
    {
      var outcome := ApplyCommand(card, action, operation, predecessorOperation);
      reply := Finish(Call.CardCommand(card, action, operation, predecessorOperation), wait1, wait2, fate, outcome);
    }

    method ApplyCommand(card: Id, action: Action, operation: Id, predecessorOperation: Id) returns (outcome: Tx)
      ensures outcome == CommandTx(committed, card, action, operation, predecessorOperation)
    {
      if card !in committed.cards { return Rollback(NotFound); }
      var was := committed.cards[card].status;
      var verdict := Transition(was, action);
      if !verdict.valid || verdict.target.None? { return Rollback(InvalidTransition); }
      var tx := committed;
      if operation in tx.operations { return Rollback(UniqueViolation); }
      tx := tx.(operations := tx.operations[operation := Operation(card, action, OpSucceeded)]);
      if !verdict.ignored {
        if action == Expire { return Rollback(UnsupportedAction); }
        tx := tx.(cards := tx.cards[card := Moved(tx.cards[card], verdict.target.value)]);
        tx := tx.(history := tx.history + [HistoryRow(card, operation, was, verdict.target.value)]);
        if action == Activate {
          outcome := ClosePredecessorOnActivation(tx, card, predecessorOperation);
          return;
        }
      }
      outcome := Commit(tx, Done);
    }

    method ClosePredecessorOnActivation(db: Db, card: Id, operation: Id) returns (outcome: Tx)
      ensures outcome == ClosePredecessor(db, card, operation)
    {
      var tx := db;
      if card !in tx.cards || tx.cards[card].predecessor.None? { return Commit(tx, Done); }
      var p := tx.cards[card].predecessor.value;
      if p !in tx.cards { return Commit(tx, Done); }
      var was := tx.cards[p].status;
      if was != Active && was != Suspended { return Commit(tx, Done); }
      tx := tx.(cards := tx.cards[p := Moved(tx.cards[p], Closed)]);
      if operation in tx.operations { return Rollback(UniqueViolation); }
      tx := tx.(operations := tx.operations[operation := Operation(p, Close, OpSucceeded)]);
      tx := tx.(history := tx.history + [HistoryRow(p, operation, was, Closed)]);
      outcome := Commit(tx, Done);
    }

    // Whoever maintains expiry dates: no code path of the service sets them before a card expires.
    method SetExpiry(card: Id, expiresAt: Option<Time>, wait1: nat, wait2: nat, fate: Fate) returns (reply: Reply)
      requires Valid()
      modifies this
      ensures Performed(Call.SetExpiry(card, expiresAt), wait1, wait2, fate, reply)
    {
      var tx := committed;
      var outcome := Rollback(NotFound);
      if card in tx.cards {
        tx := tx.(cards := tx.cards[card := tx.cards[card].(expiresAt := expiresAt)]);
        outcome := Commit(tx, Done);
      }
      reply := Finish(Call.SetExpiry(card, expiresAt), wait1, wait2, fate, outcome);
    }

    // ----- drafting -----

    method CreateBatch(id: Id, target: string, reason: string, requestedBy: string, raw: seq<RawId>,
                       operations: seq<Id>, itemIds: seq<Id>, wait1: nat, wait2: nat, fate: Fate) returns (reply: Reply)
      requires Valid()
      modifies this
      ensures Performed(Call.CreateBatch(id, target, reason, requestedBy, raw, operations, itemIds), wait1, wait2,
          fate, reply)
    {
      hide Run, Normalize, InsertBatch;
      var outcome := Rollback(InvalidRequest);
      var request := NormalizeRequest(target, reason, raw);
      if request.Some? {
        var r := request.value;
        if exists k :: 0 <= k < |r.cards| && r.cards[k] !in committed.cards {
          outcome := Rollback(InvalidCard);
        } else {
          var row := NewBatch(r.target, r.reason, requestedBy, |r.cards|, None, clock + wait1);
          outcome := InsertDraft(committed, id, row, r.cards, operations, itemIds);
        }
      }
      reply := Finish(Call.CreateBatch(id, target, reason, requestedBy, raw, operations, itemIds), wait1, wait2, fate,
          outcome);
    }

    method InsertDraft(db: Db, id: Id, row: Batch, cards: seq<Id>, operations: seq<Id>,
          itemIds: seq<Id>) returns (outcome: Tx)
      ensures outcome == InsertBatch(db, id, row, cards, operations, itemIds)
    {
      if id in db.batches { return Rollback(UniqueViolation); }
      if |operations| != |cards| || |itemIds| != |cards| { return Rollback(MissingId); }
      var tx := db.(batches := db.batches[id := row]);
      outcome := InsertBatchItems(tx, id, row.target, cards, operations, itemIds);
    }

    // insertCardStatusBatchItems
    method InsertBatchItems(db: Db, batch: Id, target: Status, cards: seq<Id>, operations: seq<Id>, itemIds: seq<Id>)
      returns (outcome: Tx)
      requires |cards| == |operations| == |itemIds|
      ensures outcome == InsertItems(db, batch, BatchOperationAction(target), cards, operations, itemIds)
    {
      var tx := db;
      var action := BatchOperationAction(target);
      for k := 0 to |cards|
        invariant InsertItems(db, batch, action, cards[..k], operations[..k], itemIds[..k]) == Commit(tx, Done)
      {
        assert cards[..k+1][..k] == cards[..k] && operations[..k+1][..k] == operations[..k] &&
          itemIds[..k+1][..k] == itemIds[..k];
        if operations[k] in tx.operations || itemIds[k] in tx.items {
          RollbackSticks(db, batch, action, cards, operations, itemIds, k + 1);
          return Rollback(UniqueViolation);
        }
        tx := tx.(operations := tx.operations[operations[k] := Operation(cards[k], action, OpQueued)]);
        tx := tx.(items := tx.items[itemIds[k] := BatchItem(batch, cards[k], operations[k], OutcomePending, None,
            None)]);
      }
      assert cards[..|cards|] == cards && operations[..|cards|] == operations && itemIds[..|cards|] == itemIds;
      outcome := Commit(tx, Done);
    }

    method ExecuteBatch(id: Id, wait1: nat, wait2: nat, fate: Fate) returns (reply: Reply)
      requires Valid()
      modifies this
      ensures Performed(Call.ExecuteBatch(id), wait1, wait2, fate, reply)
    {
      var tx := committed;
      var outcome := Rollback(NotFound);
      if id in tx.batches {
        if tx.batches[id].status == Draft {
          tx := tx.(batches := tx.batches[id := tx.batches[id].(status := Queued, nextAttemptAt := clock + wait1)]);
        }
        outcome := Commit(tx, Done);
      }
      reply := Finish(Call.ExecuteBatch(id), wait1, wait2, fate, outcome);
    }

    method CancelBatch(id: Id, wait1: nat, wait2: nat, fate: Fate) returns (reply: Reply)
      requires Valid()
      modifies this
      ensures Performed(Call.CancelBatch(id), wait1, wait2, fate, reply)
    {
      var tx := committed;
      var outcome := Rollback(NotFound);
      if id in tx.batches {
        if tx.batches[id].status != Draft && tx.batches[id].status != Queued {
          outcome := Rollback(NotCancellable);
        } else {
          tx := tx.(batches := tx.batches[id := tx.batches[id].(status := Cancelled)]);
          outcome := Commit(tx, Done);
        }
      }
      reply := Finish(Call.CancelBatch(id), wait1, wait2, fate, outcome);
    }

    method RetryBatch(source: Id, id: Id, requestedBy: string, operations: seq<Id>, itemIds: seq<Id>,
                      wait1: nat, wait2: nat, fate: Fate) returns (reply: Reply)
      requires Valid()
      modifies this
      ensures Performed(Call.RetryBatch(source, id, requestedBy, operations, itemIds), wait1, wait2, fate, reply)
    {
      hide Run, MemberCards, InsertBatch;
      var outcome := Rollback(NotFound);
      if source in committed.batches {
        var s := committed.batches[source];
        if s.status != BatchStatus.Failed && s.status != Cancelled {
          outcome := Rollback(NotRetryable);
        } else {
          var cards := MemberCards(committed, source);
          if |cards| != s.itemCount || |operations| != s.itemCount {
            outcome := Rollback(MembershipMismatch);
          } else {
            var row := NewBatch(s.target, s.reason, requestedBy, s.itemCount, Some(source), clock + wait1);
            outcome := InsertDraft(committed, id, row, cards, operations, itemIds);
          }
        }
      }
      reply := Finish(Call.RetryBatch(source, id, requestedBy, operations, itemIds), wait1, wait2, fate, outcome);
    }

    // ----- leased batches -----

    method ClaimBatch(owner: Owner, duration: nat, skipped: set<Id>, wait1: nat, wait2: nat,
          fate: Fate) returns (reply: Reply)
      requires Valid()
      modifies this
      ensures Performed(Call.ClaimBatch(owner, duration, skipped), wait1, wait2, fate, reply)
    {
      var tx := committed;
      var due := DueBatches(tx, skipped, clock + wait1);
      var outcome := Commit(tx, NoWork);
      if due.Keys != {} {
        var b := Least(due);
        var row := Claimed(tx.batches[b], owner, clock + wait1 + wait2 + duration);
        tx := tx.(batches := tx.batches[b := row]);
        outcome := Commit(tx, BatchWork(TokenOf(b, row, owner)));
      }
      reply := Finish(Call.ClaimBatch(owner, duration, skipped), wait1, wait2, fate, outcome);
    }

    method RecoverBatches(skipped: set<Id>, wait1: nat, wait2: nat, fate: Fate) returns (reply: Reply)
      requires Valid()
      modifies this
      ensures Performed(Call.RecoverBatches(skipped), wait1, wait2, fate, reply)
    {
      var tx := committed;
      var now1, now2 := clock + wait1, clock + wait1 + wait2;
      var lost := ExpiredLeases(tx, skipped, now1);
      tx := tx.(batches := map b | b in tx.batches :: if b in lost then Recovered(tx.batches[b],
          now2) else tx.batches[b]);
      reply := Finish(Call.RecoverBatches(skipped), wait1, wait2, fate, Commit(tx, Count(|lost|)));
    }

    method ApplyBatch(token: BatchToken, wait1: nat, wait2: nat, fate: Fate) returns (reply: Reply)
      requires Valid() && token in batchTokens
      modifies this
      ensures Performed(Call.ApplyBatch(token), wait1, wait2, fate, reply)
    {
      hide Run, ApplyBatchTx;
      var outcome := ApplyItems(token, clock + wait1, clock + wait1 + wait2);
      reply := Finish(Call.ApplyBatch(token), wait1, wait2, fate, outcome);
    }

    // The body of ApplyBatch: lock and check every card first, then move them one by one.
    method ApplyItems(token: BatchToken, now1: Time, now2: Time) returns (outcome: Tx)
      ensures outcome == ApplyBatchTx(committed, token, now1, now2)
    {
      hide LockedRows, ApplyLockedTx;
      if !LeaseHeld(committed, token, now1) { return Rollback(Stale); }
      outcome := ApplyLocked(committed, token, LockedRows(committed, token.batch), now2);
    }

    method ApplyLocked(db: Db, token: BatchToken, rows: seq<LockedRow>, now2: Time) returns (outcome: Tx)
      ensures outcome == ApplyLockedTx(db, token, rows, now2)
    {
      hide ApplyRows, AllLegal, AppliedAmong, Completed;
      var legal := CheckRows(rows, token.target);
      if !legal { return Rollback(InvalidTransition); }
      var tx, applied, ignored := MoveRows(db, rows, token.target);
      if !LeaseHeld(tx, token, now2) { return Rollback(Stale); }
      tx := tx.(batches := tx.batches[token.batch := Completed(tx.batches[token.batch], applied, ignored)]);
      outcome := Commit(tx, Done);
    }

    method CheckRows(rows: seq<LockedRow>, target: Status) returns (legal: bool)
      ensures legal == AllLegal(rows, target)
    {
      hide CanTransition;
      for k := 0 to |rows|
        invariant forall j :: 0 <= j < k ==> CanTransition(rows[j].status, target).valid
      {
        if !CanTransition(rows[k].status, target).valid { return false; }
      }
      legal := true;
    }

    method MoveRows(db: Db, rows: seq<LockedRow>, target: Status) returns (tx: Db, applied: nat, ignored: nat)
      ensures tx == ApplyRows(db, rows, target) && tx.batches == db.batches
      ensures applied == AppliedAmong(rows, target) && applied + ignored == |rows|
    {
      hide CanTransition, ResolveItem, FinishOperation;
      tx, applied, ignored := db, 0, 0;
      for k := 0 to |rows|
        invariant tx == ApplyRows(db, rows[..k], target) && tx.batches == db.batches
        invariant applied == AppliedAmong(rows[..k], target) && applied + ignored == k
      {
        var r := rows[k];
        assert rows[..k+1][..k] == rows[..k];
        if CanTransition(r.status, target).ignored {
          var previous := if r.item in tx.items then tx.items[r.item].previous else None;
          tx := tx.(items := ResolveItem(tx.items, r.item, OutcomeIgnored, previous));
          tx := tx.(operations := FinishOperation(tx.operations, r.operation));
          ignored := ignored + 1;
        } else {
          if r.card in tx.cards { tx := tx.(cards := tx.cards[r.card := Moved(tx.cards[r.card], target)]); }
          tx := tx.(operations := FinishOperation(tx.operations, r.operation));
          tx := tx.(history := tx.history + [HistoryRow(r.card, r.operation, r.status, target)]);
          tx := tx.(items := ResolveItem(tx.items, r.item, OutcomeApplied, Some(r.status)));
          applied := applied + 1;
        }
      }
      assert rows[..|rows|] == rows;
    }

    method FailBatch(token: BatchToken, code: Code, wait1: nat, wait2: nat, fate: Fate) returns (reply: Reply)
      requires Valid() && token in batchTokens
      modifies this
      ensures Performed(Call.FailBatch(token, code), wait1, wait2, fate, reply)
    {
      hide Run, FailBatchTx;
      var outcome := FailItems(token, code, clock + wait1, clock + wait1 + wait2);
      reply := Finish(Call.FailBatch(token, code), wait1, wait2, fate, outcome);
    }

    method FailItems(token: BatchToken, code: Code, now1: Time, now2: Time) returns (outcome: Tx)
      ensures outcome == FailBatchTx(committed, token, code, now1, now2)
    {
      if !LeaseHeld(committed, token, now1) { return Rollback(Stale); }
      var safe := SafeBatchCode(code);
      var tx := committed;
      tx := tx.(items := FailedItems(tx, token, safe));
      SameOperationsOfBatch(committed, tx, token, safe);
      tx := tx.(operations := FailedOperations(tx, token.batch));
      var ignored := |WithOutcome(tx.items, token.batch, OutcomeIgnored)|;
      if !LeaseHeld(tx, token, now2) { return Rollback(Stale); }
      tx := tx.(batches := tx.batches[token.batch := FailedRow(tx.batches[token.batch], safe, ignored)]);
      outcome := Commit(tx, Done);
    }

    // retryBatch of the executor: requeue while attempts remain.
    method RetryOrFail(token: BatchToken, maxAttempts: nat, code: Code, delay: nat, wait1: nat, wait2: nat, fate: Fate)
      returns (reply: Reply)
      requires Valid() && token in batchTokens
      modifies this
      ensures Performed(Call.RetryOrFail(token, maxAttempts, code, delay), wait1, wait2, fate, reply)
    {
      var now1, now2 := clock + wait1, clock + wait1 + wait2;
      var outcome := Rollback(Stale);
      if token.attemptCount >= maxAttempts {
        outcome := FailItems(token, RetryExhausted, now1, now2);
      } else if LeaseHeld(committed, token, now1) {
        var tx := committed;
        tx := tx.(batches := tx.batches[token.batch := Requeued(tx.batches[token.batch], SafeBatchCode(code),
            now1 + delay)]);
        outcome := Commit(tx, Done);
      }
      reply := Finish(Call.RetryOrFail(token, maxAttempts, code, delay), wait1, wait2, fate, outcome);
    }

    // ----- scheduled expiry -----

    method EnsureExpiryRun(day: Day, skipped: set<Id>, operations: seq<Id>, itemIds: seq<Id>, wait1: nat, wait2: nat,
          fate: Fate)
      returns (reply: Reply)
      requires Valid()
      modifies this
      ensures Performed(Call.EnsureExpiryRun(day, skipped, operations, itemIds), wait1, wait2, fate, reply)
    {
      hide Run, EnsureExpiryRunTx;
      var outcome := ScheduleRun(day, skipped, operations, itemIds, clock + wait1);
      reply := Finish(Call.EnsureExpiryRun(day, skipped, operations, itemIds), wait1, wait2, fate, outcome);
    }

    method ScheduleRun(day: Day, skipped: set<Id>, operations: seq<Id>, itemIds: seq<Id>,
          now: Time) returns (outcome: Tx)
      ensures outcome == EnsureExpiryRunTx(committed, day, skipped, operations, itemIds, now)
    {
      hide SelectedCards, OpenRun, ReopenRun, CountRun, Scheduled;
      var tx := OpenRun(committed, day);
      var cards := SelectedCards(tx, day, skipped);
      if |operations| < |cards| || |itemIds| < |cards| { return Rollback(MissingId); }
      if |cards| > 0 { tx := ReopenRun(tx, day); }
      ghost var ready := tx;
      for k := 0 to |cards|
        invariant ScheduleCards(ready, day, cards[..k], operations, itemIds, now) == Commit(tx, Done)
      {
        assert cards[..k+1][..k] == cards[..k];
        if operations[k] in tx.operations {
          ScheduleRollbackSticks(ready, day, cards, operations, itemIds, now, k + 1);
          return Rollback(UniqueViolation);
        }
        tx := tx.(operations := tx.operations[operations[k] := Operation(cards[k], Expire, OpQueued)]);
        if !Scheduled(tx, day, cards[k]) {
          if itemIds[k] in tx.expiryItems {
            ScheduleRollbackSticks(ready, day, cards, operations, itemIds, now, k + 1);
            return Rollback(UniqueViolation);
          }
          tx := tx.(expiryItems := tx.expiryItems[itemIds[k] := NewExpiryItem(day, cards[k], operations[k], now)]);
        }
      }
      assert cards[..|cards|] == cards;
      outcome := Commit(CountRun(tx, day), Done);
    }

    method ClaimExpiryItem(owner: Owner, duration: nat, skipped: set<Id>, wait1: nat, wait2: nat,
          fate: Fate) returns (reply: Reply)
      requires Valid()
      modifies this
      ensures Performed(Call.ClaimExpiryItem(owner, duration, skipped), wait1, wait2, fate, reply)
    {
      var tx := committed;
      var due := DueItems(tx, skipped, clock + wait1);
      var outcome := Commit(tx, NoWork);
      if due.Keys != {} {
        var i := Least(due);
        var row := ClaimedItem(tx.expiryItems[i], owner, clock + wait1 + wait2 + duration);
        tx := tx.(expiryItems := tx.expiryItems[i := row]);
        outcome := Commit(tx, ExpiryWork(
          ExpiryToken(i, row.day, row.card, row.operation, owner, row.leaseVersion, row.automaticRetries)));
      }
      reply := Finish(Call.ClaimExpiryItem(owner, duration, skipped), wait1, wait2, fate, outcome);
    }

    method RecoverExpiryItems(skipped: set<Id>, wait1: nat, wait2: nat, fate: Fate) returns (reply: Reply)
      requires Valid()
      modifies this
      ensures Performed(Call.RecoverExpiryItems(skipped), wait1, wait2, fate, reply)
    {
      hide Run, RecoverExpiryItemsTx;
      var outcome := RecoverLeases(skipped, clock + wait1, clock + wait1 + wait2);
      reply := Finish(Call.RecoverExpiryItems(skipped), wait1, wait2, fate, outcome);
    }

    method RecoverLeases(skipped: set<Id>, now1: Time, now2: Time) returns (outcome: Tx)
      ensures outcome == RecoverExpiryItemsTx(committed, skipped, now1, now2)
    {
      hide RecoveredItem, CompleteRuns;
      var lost := ExpiredItemLeases(committed, skipped, now1);
      var runs := DaysOf(committed, Ordered(ById(lost)));
      var tx := committed.(expiryItems := RecoveredItems(committed, lost, now2));
      tx := CompleteEach(tx, runs);
      outcome := Commit(tx, Count(|runs|));
    }

    method CompleteEach(db: Db, runs: seq<Day>) returns (tx: Db)
      ensures tx == CompleteRuns(db, runs)
    {
      hide CompleteRun;
      tx := db;
      for k := 0 to |runs|
        invariant tx == CompleteRuns(db, runs[..k])
      {
        assert runs[..k+1][..k] == runs[..k];
        tx := CompleteRun(tx, runs[k]);
      }
      assert runs[..|runs|] == runs;
    }

    method ApplyExpiryItem(token: ExpiryToken, wait1: nat, wait2: nat, fate: Fate) returns (reply: Reply)
      requires Valid() && token in expiryTokens
      modifies this
      ensures Performed(Call.ApplyExpiryItem(token), wait1, wait2, fate, reply)
    {
      hide Run, ApplyExpiryItemTx;
      var outcome := ExpireCard(token, clock + wait1, clock + wait1 + wait2);
      reply := Finish(Call.ApplyExpiryItem(token), wait1, wait2, fate, outcome);
    }

    method ExpireCard(token: ExpiryToken, now1: Time, now2: Time) returns (outcome: Tx)
      ensures outcome == ApplyExpiryItemTx(committed, token, now1, now2)
    {
      if !ExpiryLeaseHeld(committed, token, now1) { return Rollback(Stale); }
      if token.card !in committed.cards { return Rollback(NotFound); }
      var tx := committed;
      var was := tx.cards[token.card].status;
      var result := ExpExpired;
      if was == Expired {
        result := ExpSkipped;
      } else {
        if !Transition(was, Expire).valid { return Rollback(InvalidTransition); }
        tx := tx.(cards := tx.cards[token.card := Moved(tx.cards[token.card], Expired)]);
        tx := tx.(history := tx.history + [HistoryRow(token.card, token.operation, was, Expired)]);
        if tx.cards[token.card].expiresAt.None? {
          tx := tx.(cards := tx.cards[token.card := tx.cards[token.card].(expiresAt := Some(now1))]);
        }
      }
      tx := tx.(operations := SucceedOperation(tx.operations, token.operation));
      if !ExpiryLeaseHeld(tx, token, now2) { return Rollback(Stale); }
      tx := tx.(expiryItems := tx.expiryItems[token.item := ResolvedItem(tx.expiryItems[token.item], result)]);
      outcome := Commit(CompleteRun(tx, token.day), Done);
    }

    // RequeueExpiryItem, and FailExpiryItem with its fixed delay.
    method RequeueExpiryItem(token: ExpiryToken, delay: nat, wait1: nat, wait2: nat, fate: Fate) returns (reply: Reply)
      requires Valid() && token in expiryTokens
      modifies this
      ensures Performed(Call.RequeueExpiryItem(token, delay), wait1, wait2, fate, reply)
    {
      var tx := committed;
      var outcome := Rollback(Stale);
      if ExpiryLeaseHeld(tx, token, clock + wait1) {
        var exhausted := token.automaticRetries >= AUTOMATIC_RETRY_LIMIT;
        tx := tx.(expiryItems := tx.expiryItems[token.item :=
          ExpiryTransactions.Failed(tx.expiryItems[token.item], exhausted, clock + wait1 + delay)]);
        outcome := Commit(CompleteRun(tx, token.day), Done);
      }
      reply := Finish(Call.RequeueExpiryItem(token, delay), wait1, wait2, fate, outcome);
    }

    method ManualExpiryRetry(day: Day, item: Id, wait1: nat, wait2: nat, fate: Fate) returns (reply: Reply)
      requires Valid()
      modifies this
      ensures Performed(Call.ManualExpiryRetry(day, item), wait1, wait2, fate, reply)
    {
      var tx := committed;
      var outcome := Rollback(NotRetryable);
      if item in tx.expiryItems && tx.expiryItems[item].day == day && tx.expiryItems[item].status == ExpManual {
        if day in tx.runs && tx.runs[day].completed { tx := ReopenRun(tx, day); }
        var row := tx.expiryItems[item];
        if row.card in tx.cards && tx.cards[row.card].status != Expired {
          tx := tx.(expiryItems := tx.expiryItems[item :=
            row.(status := ExpPending, manualRetries := row.manualRetries + 1, nextAttemptAt := clock + wait1)]);
          outcome := Commit(tx, Done);
        }
      }
      reply := Finish(Call.ManualExpiryRetry(day, item), wait1, wait2, fate, outcome);
    }
  }

  // Once an insertion fails, the whole statement list fails.
  lemma {:induction false} RollbackSticks(db: Db, batch: Id, action: Action, cards: seq<Id>, operations: seq<Id>,
        itemIds: seq<Id>, k: nat)
    requires |cards| == |operations| == |itemIds| && k <= |cards|
    requires InsertItems(db, batch, action, cards[..k], operations[..k], itemIds[..k]) == Rollback(UniqueViolation)
    ensures InsertItems(db, batch, action, cards, operations, itemIds) == Rollback(UniqueViolation)
  {
    var n := |cards|;
    if k == n {
      assert cards[..k] == cards && operations[..k] == operations && itemIds[..k] == itemIds;
    } else {
      assert cards[..n-1][..k] == cards[..k] && operations[..n-1][..k] == operations[..k] &&
        itemIds[..n-1][..k] == itemIds[..k];
      RollbackSticks(db, batch, action, cards[..n-1], operations[..n-1], itemIds[..n-1], k);
    }
  }

  lemma {:induction false} ScheduleRollbackSticks(db: Db, day: Day, cards: seq<Id>, operations: seq<Id>,
        itemIds: seq<Id>, now: Time, k: nat)
    requires |cards| <= |operations| && |cards| <= |itemIds| && k <= |cards|
    requires ScheduleCards(db, day, cards[..k], operations, itemIds, now) == Rollback(UniqueViolation)
    ensures ScheduleCards(db, day, cards, operations, itemIds, now) == Rollback(UniqueViolation)
  {
    var n := |cards|;
    if k == n {
      assert cards[..k] == cards;
    } else {
      assert cards[..n-1][..k] == cards[..k];
      ScheduleRollbackSticks(db, day, cards[..n-1], operations, itemIds, now, k);
    }
  }

  // Failing the items does not change which operations are the batch's.
  lemma {:induction false} SameOperationsOfBatch(db: Db, tx: Db, token: BatchToken, code: Code)
    requires tx == db.(items := FailedItems(db, token, code))
    ensures FailedOperations(tx, token.batch) == FailedOperations(db, token.batch)
  {
    forall o | o in db.operations
      ensures OperationOfBatch(tx, o, token.batch) == OperationOfBatch(db, o, token.batch)
    {
      if OperationOfBatch(db, o, token.batch) {
        var i :| i in db.items && db.items[i].batch == token.batch && db.items[i].operation == o;
        assert i in tx.items && tx.items[i].batch == token.batch && tx.items[i].operation == o;
      }
      if OperationOfBatch(tx, o, token.batch) {
        var i :| i in tx.items && tx.items[i].batch == token.batch && tx.items[i].operation == o;
        assert i in db.items && db.items[i].batch == token.batch && db.items[i].operation == o;
      }
    }
  }
}
