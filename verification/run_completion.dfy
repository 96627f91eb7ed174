// When an expiry run is completed: the flag against the items, in every reachable state.
module RunCompletion {
  import opened Wrappers
  import opened RowOrder
  import opened Lifecycle
  import opened Tables
  import opened DraftRequest
  import opened CardTransactions
  import opened BatchTransactions
  import opened ExpiryTransactions
  import opened Evidence
  import opened BatchRefinement
  import opened ShardInvariant
  import opened ExpirySteps
  import opened Executions
  import opened Fencing
  import opened DraftEffects
  import opened ScheduleEffects
  import opened LeaseEffects
  import opened ExpiryEffects

  predicate HasItems(items: map<Id, ExpiryItem>, day: Day) {
    exists i :: i in items && items[i].day == day
  }

  // The day's run is completed exactly when it has items and none of them is pending or in progress.
  predicate ClosesExactly(db: Db, day: Day) {
    day in db.runs ==>
      (db.runs[day].completed <==>
        HasItems(db.expiryItems, day) &&
        forall i :: i in db.expiryItems && db.expiryItems[i].day == day ==>
          db.expiryItems[i].status != ExpPending && db.expiryItems[i].status != ExpProcessing)
  }

  predicate AllClose(db: Db) {
    forall d :: d in db.runs ==> ClosesExactly(db, d)
  }

  predicate DaysHaveRuns(db: Db) {
    forall i :: i in db.expiryItems ==> db.expiryItems[i].day in db.runs
  }

  lemma {:induction false} ItemDaysHaveRuns(db: Db)
    requires ExpiryEvidenceOk(db)
    ensures DaysHaveRuns(db)
  {
    forall i | i in db.expiryItems ensures db.expiryItems[i].day in db.runs { assert ExpiryItemOk(db, i); }
  }

  // ----- calls that leave items and runs alone -----

  lemma {:induction false} DraftsKeepRuns(db: Db, call: Call, now1: Time, now2: Time)
    requires call.CreateBatch? || call.RetryBatch?
    ensures var t := Body(db, call, now1, now2);
      t.Commit? ==> t.db.runs == db.runs && t.db.expiryItems == db.expiryItems
  {
    hide Normalize, InsertBatch, MemberCards, OperationsAdded, ItemsAdded;
    match call
    case CreateBatch(id, target, reason, actor, raw, operations, itemIds) =>
      var r := Normalize(target, reason, raw);
      if r.Some? {
        DraftIsInserted(db, id, NewBatch(r.value.target, r.value.reason, actor, |r.value.cards|, None, now1),
          r.value.cards, operations, itemIds);
      }
    case RetryBatch(source, id, actor, operations, itemIds) =>
      if source in db.batches {
        var s := db.batches[source];
        DraftIsInserted(db, id, NewBatch(s.target, s.reason, actor, s.itemCount, Some(source), now1),
          MemberCards(db, source), operations, itemIds);
      }
  }

  lemma {:induction false} OthersKeepRuns(db: Db, call: Call, now1: Time, now2: Time)
    requires Ready(db) && !ExpiryCall(call)
    ensures var t := Body(db, call, now1, now2);
      t.Commit? ==> t.db.runs == db.runs && t.db.expiryItems == db.expiryItems
  {
    hide Ready, Body;
    if CardCall(call) {
      CardCallsKeepRuns(db, call, now1, now2);
    } else if call.CreateBatch? || call.RetryBatch? {
      DraftsKeepRuns(db, call, now1, now2);
    } else if call.ApplyBatch? {
      ApplicationKeepsRuns(db, call, now1, now2);
    } else {
      QueueCallsKeepRuns(db, call, now1, now2);
    }
  }

  lemma {:induction false} QueueCallsKeepRuns(db: Db, call: Call, now1: Time, now2: Time)
    requires !CardCall(call) && !ExpiryCall(call) && !call.CreateBatch? && !call.RetryBatch? && !call.ApplyBatch?
    ensures var t := Body(db, call, now1, now2);
      t.Commit? ==> t.db.runs == db.runs && t.db.expiryItems == db.expiryItems
  {
    hide WithOutcome, FailedItems, FailedOperations;
    match call
    case ExecuteBatch(id) =>
    case CancelBatch(id) =>
    case ClaimBatch(owner, duration, skipped) =>
    case RecoverBatches(skipped) =>
    case FailBatch(token, code) =>
    case RetryOrFail(token, maxAttempts, code, delay) =>
  }

  lemma {:induction false} CardCallsKeepRuns(db: Db, call: Call, now1: Time, now2: Time)
    requires CardCall(call)
    ensures var t := Body(db, call, now1, now2);
      t.Commit? ==> t.db.runs == db.runs && t.db.expiryItems == db.expiryItems
  {
  }

  lemma {:induction false} ApplicationKeepsRuns(db: Db, call: Call, now1: Time, now2: Time)
    requires Ready(db) && call.ApplyBatch?
    ensures var t := Body(db, call, now1, now2);
      t.Commit? ==> t.db.runs == db.runs && t.db.expiryItems == db.expiryItems
  {
    hide Ready, ApplyBatchTx, WithOutcome, EveryMoveLegal;
    ApplyBatchIsAtomic(db, call.batchToken, now1, now2);
  }

  // ----- completing -----

  lemma {:induction false} CompletingSetsTheFlag(db: Db, days: seq<Day>, d: Day)
    requires d in db.runs
    ensures var c := CompleteRuns(db, days);
      d in c.runs && c.expiryItems == db.expiryItems &&
      (c.runs[d].completed <==> db.runs[d].completed || (d in days && !HasUnresolved(db.expiryItems, d)))
  {
    hide HasUnresolved, CompletedRun;
    if days != [] {
      var n := |days| - 1;
      CompletingSetsTheFlag(db, days[..n], d);
      assert days == days[..n] + [days[n]];
      OneFlag(CompleteRuns(db, days[..n]), days[n], d);
    }
  }

  lemma {:induction false} OneFlag(db: Db, day: Day, d: Day)
    requires d in db.runs
    ensures var c := CompleteRun(db, day);
      d in c.runs && c.expiryItems == db.expiryItems &&
      (c.runs[d].completed <==> db.runs[d].completed || (d == day && !HasUnresolved(db.expiryItems, d)))
  {
    hide HasUnresolved;
  }

  // A run whose items stay as they are keeps its flag right; one with a changed item had that item
  // unresolved, so it was open, and its flag is set when nothing unresolved is left.
  lemma {:induction false} FlagStaysRight(db: Db, d': Db, d: Day, touched: set<Id>, completing: bool)
    requires d in db.runs && d in d'.runs && ClosesExactly(db, d)
    requires db.expiryItems.Keys == d'.expiryItems.Keys
    requires forall i :: i in db.expiryItems ==> d'.expiryItems[i].day == db.expiryItems[i].day
    requires forall i :: i in db.expiryItems && i !in touched ==> d'.expiryItems[i] == db.expiryItems[i]
    requires forall i :: i in touched ==> i in db.expiryItems && db.expiryItems[i].status == ExpProcessing
    requires completing <==> exists i :: i in touched && db.expiryItems[i].day == d
    requires d'.runs[d].completed <==> db.runs[d].completed || (completing && !HasUnresolved(d'.expiryItems, d))
    ensures ClosesExactly(d', d)
  {
    assert HasItems(d'.expiryItems, d) <==> HasItems(db.expiryItems, d) by {
      if i :| i in db.expiryItems && db.expiryItems[i].day == d { assert d'.expiryItems[i].day == d; }
      if i :| i in d'.expiryItems && d'.expiryItems[i].day == d { assert db.expiryItems[i].day == d; }
    }
    if completing {
      var i :| i in touched && db.expiryItems[i].day == d;
      assert HasItems(db.expiryItems, d);
    }
  }

  // ----- each call -----

  predicate Closing(db: Db) {
    AllClose(db) && DaysHaveRuns(db)
  }

  lemma {:induction false} RecoveryCloses(db: Db, skipped: set<Id>, now1: Time, now2: Time)
    requires Closing(db)
    ensures AllClose(RecoverExpiryItemsTx(db, skipped, now1, now2).db)
  {
    hide CompleteRuns, Ordered, HasUnresolved, ClosesExactly, RecoveredItem, RecoveredItems, ExpiredItemLeases, DaysOf;
    var lost := ExpiredItemLeases(db, skipped, now1);
    LostAreInProgress(db, skipped, now1);
    assert ById(lost).Keys == lost;
    var ids := Ordered(ById(lost));
    var changed := db.(expiryItems := RecoveredItems(db, lost, now2));
    CompletingKeepsDays(changed, DaysOf(db, ids));
    forall d | d in changed.runs ensures ClosesExactly(CompleteRuns(changed, DaysOf(db, ids)), d) {
      RecoveredDayCloses(db, lost, ids, now2, d);
    }
  }

  lemma {:induction false} LostAreInProgress(db: Db, skipped: set<Id>, now: Time)
    ensures forall i :: i in ExpiredItemLeases(db, skipped, now) ==>
      i in db.expiryItems && db.expiryItems[i].status == ExpProcessing
  {
  }

  lemma {:induction false} RecoveredDayCloses(db: Db, lost: set<Id>, ids: seq<Id>, now: Time, d: Day)
    requires d in db.runs && ClosesExactly(db, d) && forall i :: i in ids <==> i in lost
    requires forall i :: i in lost ==> i in db.expiryItems && db.expiryItems[i].status == ExpProcessing
    ensures ClosesExactly(CompleteRuns(db.(expiryItems := RecoveredItems(db, lost, now)), DaysOf(db, ids)), d)
  {
    hide CompleteRuns, HasUnresolved, ClosesExactly, DaysOf;
    var changed := db.(expiryItems := RecoveredItems(db, lost, now));
    CompletingSetsTheFlag(changed, DaysOf(db, ids), d);
    DaysOfLost(db, lost, ids, d);
    FlagStaysRight(db, CompleteRuns(changed, DaysOf(db, ids)), d, lost, d in DaysOf(db, ids));
  }

  lemma {:induction false} DaysOfLost(db: Db, lost: set<Id>, ids: seq<Id>, d: Day)
    requires lost <= db.expiryItems.Keys && forall i :: i in ids <==> i in lost
    ensures d in DaysOf(db, ids) <==> exists i :: i in lost && db.expiryItems[i].day == d
  {
    var days := DaysOf(db, ids);
    if i :| i in lost && db.expiryItems[i].day == d {
      assert i in ids;
      var k :| 0 <= k < |ids| && ids[k] == i;
      assert days[k] == d;
    }
    if d in days {
      var k :| 0 <= k < |days| && days[k] == d;
      assert ids[k] in ids;
    }
  }

  lemma {:induction false} CompletingKeepsDays(db: Db, days: seq<Day>)
    ensures CompleteRuns(db, days).runs.Keys == db.runs.Keys
  {
    if days != [] { CompletingKeepsDays(db, days[..|days|-1]); }
  }

  // The end of a claim: one item in progress changes, then its run is completed if that was the last.
  lemma {:induction false} OneItemCloses(db: Db, changed: Db, item: Id, row: ExpiryItem)
    requires Closing(db) && item in db.expiryItems && db.expiryItems[item].status == ExpProcessing
    requires row.day == db.expiryItems[item].day
    requires changed.runs == db.runs && changed.expiryItems == db.expiryItems[item := row]
    ensures AllClose(CompleteRun(changed, row.day))
  {
    var d' := CompleteRun(changed, row.day);
    forall d | d in d'.runs ensures ClosesExactly(d', d) {
      OneFlag(changed, row.day, d);
      hide CompleteRun;
      FlagStaysRight(db, d', d, {item}, d == row.day);
    }
  }

  lemma {:induction false} EndingCloses(db: Db, call: Call, now1: Time, now2: Time)
    requires Closing(db) && LeasedExpiryCall(call) && SnapshotOk(db.expiryItems, call.expiryToken)
    ensures var t := Body(db, call, now1, now2); t.Commit? ==> AllClose(t.db)
  {
    hide AllClose, DaysHaveRuns, CompleteRun, SucceedOperation, StampExpiry;
    var t := Body(db, call, now1, now2);
    var i := call.expiryToken.item;
    if t.Commit? {
      if call.ApplyExpiryItem? {
        var card := call.expiryToken.card;
        var was := db.cards[card].status;
        var expired := if was == Expired then db
          else StampExpiry(Post(db, card, call.expiryToken.operation, was, Expired), card, now1);
        StampingKeepsItems(db, card, call.expiryToken.operation, was, now1);
        var row := ResolvedItem(db.expiryItems[i], if was == Expired then ExpSkipped else ExpExpired);
        OneItemCloses(db, expired.(operations := SucceedOperation(db.operations, call.expiryToken.operation),
          expiryItems := db.expiryItems[i := row]), i, row);
      } else {
        var exhausted := call.expiryToken.automaticRetries >= AUTOMATIC_RETRY_LIMIT;
        var row := ExpiryTransactions.Failed(db.expiryItems[i], exhausted, now1 + call.delay);
        OneItemCloses(db, db.(expiryItems := db.expiryItems[i := row]), i, row);
      }
    }
  }

  lemma {:induction false} StampingKeepsItems(db: Db, card: Id, operation: Id, was: Status, now: Time)
    ensures var d := StampExpiry(Post(db, card, operation, was, Expired), card, now);
      d.runs == db.runs && d.expiryItems == db.expiryItems
  {
  }

  // An item that is unresolved afterwards keeps its run open; every other run is as it was.
  lemma {:induction false} UnresolvedItemCloses(db: Db, d': Db, i: Id, row: ExpiryItem)
    requires Closing(db) && i in db.expiryItems && row.day == db.expiryItems[i].day
    requires row.status == ExpPending || row.status == ExpProcessing
    requires d'.expiryItems == db.expiryItems[i := row] && d'.runs.Keys == db.runs.Keys
    requires forall d :: d in db.runs && d != row.day ==> d'.runs[d] == db.runs[d]
    requires !d'.runs[row.day].completed
    ensures AllClose(d')
  {
    forall d | d in d'.runs ensures ClosesExactly(d', d) {
      assert ClosesExactly(db, d);
      if d == row.day {
        assert d'.expiryItems[i].day == d;
      } else {
        OneItemKeepsDays(db.expiryItems, i, row, d);
        assert forall k :: k in db.expiryItems && db.expiryItems[k].day == d ==>
          d'.expiryItems[k] == db.expiryItems[k];
      }
    }
  }

  lemma {:induction false} OneItemKeepsDays(items: map<Id, ExpiryItem>, i: Id, row: ExpiryItem, d: Day)
    requires i in items && row.day == items[i].day
    ensures HasItems(items[i := row], d) <==> HasItems(items, d)
  {
    var items' := items[i := row];
    if k :| k in items && items[k].day == d { assert items'[k].day == d; }
    if k :| k in items' && items'[k].day == d { assert items[k].day == d; }
  }

  lemma {:induction false} PendingKeepsOpen(db: Db, i: Id)
    requires Closing(db) && i in db.expiryItems && db.expiryItems[i].status == ExpPending
    ensures !db.runs[db.expiryItems[i].day].completed
  {
    assert ClosesExactly(db, db.expiryItems[i].day);
  }

  lemma {:induction false} ClaimingCloses(db: Db, owner: Owner, duration: nat, skipped: set<Id>, now1: Time, now2: Time)
    requires Closing(db)
    ensures AllClose(ClaimExpiryItemTx(db, owner, duration, skipped, now1, now2).db)
  {
    hide ClaimExpiryItemTx, AllClose;
    var t := ClaimExpiryItemTx(db, owner, duration, skipped, now1, now2);
    ItemClaimTakesTheEarliestDue(db, owner, duration, skipped, now1, now2);
    if t.reply.ExpiryWork? {
      var i := t.reply.expiryToken.item;
      PendingKeepsOpen(db, i);
      UnresolvedItemCloses(db, t.db, i, t.db.expiryItems[i]);
    }
  }

  lemma {:induction false} ManualRetryCloses(db: Db, day: Day, item: Id, now: Time)
    requires Closing(db)
    ensures var t := ManualRetryTx(db, day, item, now); t.Commit? ==> AllClose(t.db)
  {
    hide ManualRetryTx, AllClose;
    var t := ManualRetryTx(db, day, item, now);
    ManualRetryReopens(db, day, item, now);
    if t.Commit? { UnresolvedItemCloses(db, t.db, item, t.db.expiryItems[item]); }
  }

  lemma {:induction false} SchedulingCloses(db: Db, day: Day, skipped: set<Id>, operations: seq<Id>, itemIds: seq<Id>,
        now: Time)
    requires Closing(db)
    ensures var t := EnsureExpiryRunTx(db, day, skipped, operations, itemIds, now); t.Commit? ==> AllClose(t.db)
  {
    hide EnsureExpiryRunTx, DraftEffects.Unused, Owing;
    var t := EnsureExpiryRunTx(db, day, skipped, operations, itemIds, now);
    var cards := EnsureSchedulesWhoOwes(db, day, skipped, operations, itemIds, now);
    var n := |cards|;
    hide Selected;
    if t.Commit? { ScheduledCloses(db, t.db, day, cards, operations[..n], itemIds[..n], now); }
  }

  lemma {:induction false} ScheduledCloses(db: Db, d': Db, day: Day, cards: seq<Id>, operations: seq<Id>,
        itemIds: seq<Id>, now: Time)
    requires Closing(db) && ScheduledFor(db, d', day, cards, operations, itemIds, now)
    ensures AllClose(d')
  {
    forall d | d in d'.runs ensures ClosesExactly(d', d) {
      if d in db.runs { assert ClosesExactly(db, d); }
      if d == day && cards != [] {
        assert itemIds[0] in d'.expiryItems && d'.expiryItems[itemIds[0]].day == day;
      } else {
        SameDay(db, d', d, day, cards, operations, itemIds, now);
      }
    }
  }

  lemma {:induction false} SameDay(db: Db, d': Db, d: Day, day: Day, cards: seq<Id>, operations: seq<Id>,
        itemIds: seq<Id>, now: Time)
    requires ScheduledFor(db, d', day, cards, operations, itemIds, now) && (d != day || cards == [])
    ensures forall i :: i in d'.expiryItems && d'.expiryItems[i].day == d ==>
      i in db.expiryItems && d'.expiryItems[i] == db.expiryItems[i]
    ensures forall i :: i in db.expiryItems ==> i in d'.expiryItems && d'.expiryItems[i] == db.expiryItems[i]
    ensures HasItems(d'.expiryItems, d) <==> HasItems(db.expiryItems, d)
  {
    if i :| i in db.expiryItems && db.expiryItems[i].day == d { assert d'.expiryItems[i].day == d; }
  }

  // ----- whole runs -----

  lemma {:induction false} DaysByInv(db: Db)
    requires Inv(db)
    ensures DaysHaveRuns(db)
  {
    ItemDaysHaveRuns(db);
  }

  lemma {:induction false} CallsClose(db: Db, call: Call, now1: Time, now2: Time)
    requires Inv(db) && AllClose(db)
    requires LeasedExpiryCall(call) ==> SnapshotOk(db.expiryItems, call.expiryToken)
    ensures var t := Body(db, call, now1, now2); t.Commit? ==> AllClose(t.db)
  {
    hide AllClose, DaysHaveRuns, Inv, Ready, Body, SnapshotOk;
    ReadyByInv(db);
    DaysByInv(db);
    if !ExpiryCall(call) {
      OthersKeepRuns(db, call, now1, now2);
      var t := Body(db, call, now1, now2);
      if t.Commit? { SameRunsClose(db, t.db); }
    } else if LeasedExpiryCall(call) {
      EndingCloses(db, call, now1, now2);
    } else {
      UnleasedClose(db, call, now1, now2);
    }
  }

  lemma {:induction false} SameRunsClose(db: Db, d': Db)
    requires AllClose(db) && d'.runs == db.runs && d'.expiryItems == db.expiryItems
    ensures AllClose(d')
  {
    forall d | d in d'.runs ensures ClosesExactly(d', d) { assert ClosesExactly(db, d); }
  }

  lemma {:induction false} UnleasedClose(db: Db, call: Call, now1: Time, now2: Time)
    requires Closing(db) && ExpiryCall(call) && !LeasedExpiryCall(call)
    ensures var t := Body(db, call, now1, now2); t.Commit? ==> AllClose(t.db)
  {
    hide Closing, AllClose, EnsureExpiryRunTx, ClaimExpiryItemTx, RecoverExpiryItemsTx, ManualRetryTx;
    match call
    case EnsureExpiryRun(day, skipped, operations, itemIds) =>
      SchedulingCloses(db, day, skipped, operations, itemIds, now1);
    case ClaimExpiryItem(owner, duration, skipped) => ClaimingCloses(db, owner, duration, skipped, now1, now2);
    case RecoverExpiryItems(skipped) => RecoveryCloses(db, skipped, now1, now2);
    case ManualExpiryRetry(day, item) => ManualRetryCloses(db, day, item, now1);
  }

  lemma {:induction false} EveryRunCloses(steps: seq<Step>)
    ensures AllClose(Run(steps).db)
  {
    hide Run, AllClose, Inv, Body, SnapshotOk;
    if steps == [] {
      NothingToClose(steps);
    } else {
      var n := |steps| - 1;
      EveryRunCloses(steps[..n]);
      EveryRunKeepsInv(steps[..n]);
      assert steps[..n+1] == steps;
      CommittedStep(steps, n);
      var w, s := At(steps, n), steps[n];
      if CommitsAt(steps, n) { CallsClose(w.db, s.call, w.clock + s.wait1, w.clock + s.wait1 + s.wait2); }
    }
  }

  lemma {:induction false} NothingToClose(steps: seq<Step>)
    requires steps == []
    ensures AllClose(Run(steps).db)
  {
  }

  // In every reachable state an expiry run is completed exactly when it has items and none of them is
  // pending or in progress: the last item's end completes it, and a new or reopened item opens it.
  lemma {:induction false} RunsCloseExactly(steps: seq<Step>, day: Day)
    requires day in Run(steps).db.runs
    ensures var db := Run(steps).db;
      db.runs[day].completed <==>
        (exists i :: i in db.expiryItems && db.expiryItems[i].day == day) &&
        forall i :: i in db.expiryItems && db.expiryItems[i].day == day ==>
          db.expiryItems[i].status in {ExpExpired, ExpSkipped, ExpManual}
  {
    hide Run;
    EveryRunCloses(steps);
    assert ClosesExactly(Run(steps).db, day);
  }
}
