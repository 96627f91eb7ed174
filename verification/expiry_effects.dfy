// What the leased execution of expiry items leaves behind, and how long a claim lives.
module ExpiryEffects {
  import opened Wrappers
  import opened RowOrder
  import opened Lifecycle
  import opened Tables
  import opened ExpiryTransactions
  import opened ShardInvariant
  import opened ExpirySteps
  import opened ForwardSteps
  import opened Executions
  import opened Fencing
  import opened RetryBudget
  import opened ExpiryFailures

  // ----- claims -----

  // A claim takes the due item with the earliest (next_attempt_at, id), and only that row moves.
  lemma {:induction false} ItemClaimTakesTheEarliestDue(db: Db, owner: Owner, duration: nat, skipped: set<Id>,
        now1: Time, now2: Time)
    ensures var t := ClaimExpiryItemTx(db, owner, duration, skipped, now1, now2);
      t.Commit? && (t.reply == NoWork || t.reply.ExpiryWork?) &&
      (t.reply == NoWork ==> t.db == db) &&
      (t.reply == NoWork ==>
        forall i :: i in db.expiryItems && db.expiryItems[i].status == ExpPending && i !in skipped ==>
          db.expiryItems[i].nextAttemptAt > now1)
    ensures var t := ClaimExpiryItemTx(db, owner, duration, skipped, now1, now2);
      t.reply.ExpiryWork? ==> (
        var i := t.reply.expiryToken.item;
        i in db.expiryItems && i !in skipped && db.expiryItems[i].status == ExpPending &&
        db.expiryItems[i].nextAttemptAt <= now1 &&
        (forall c :: c in db.expiryItems && c != i && c !in skipped && db.expiryItems[c].status == ExpPending ==>
          db.expiryItems[i].nextAttemptAt < db.expiryItems[c].nextAttemptAt ||
          (db.expiryItems[i].nextAttemptAt == db.expiryItems[c].nextAttemptAt && i < c)) &&
        var row := db.expiryItems[i];
        t.db == db.(expiryItems := db.expiryItems[i := row.(status := ExpProcessing,
          lease := Some(Lease(owner, now2 + duration)), leaseVersion := row.leaseVersion + 1)]) &&
        t.reply.expiryToken ==
          ExpiryToken(i, row.day, row.card, row.operation, owner, row.leaseVersion + 1, row.automaticRetries))
  {
    var due := DueItems(db, skipped, now1);
    if due.Keys != {} {
      var i := Least(due);
      assert First(due, i);
      forall c | c in db.expiryItems && c != i && c !in skipped && db.expiryItems[c].status == ExpPending
        ensures db.expiryItems[i].nextAttemptAt < db.expiryItems[c].nextAttemptAt ||
          (db.expiryItems[i].nextAttemptAt == db.expiryItems[c].nextAttemptAt && i < c)
      {
        if c in due { assert Before(due, i, c); }
      }
    } else {
      forall i | i in db.expiryItems && db.expiryItems[i].status == ExpPending && i !in skipped
        ensures db.expiryItems[i].nextAttemptAt > now1
      {
        assert i !in due.Keys;
      }
    }
  }

  // ----- recovery -----

  predicate LapsedItem(row: ExpiryItem, now: Time) {
    row.status == ExpProcessing && row.lease.Some? && row.lease.value.until <= now
  }

  // The row after a failed attempt: pending with one automatic retry more while fewer than three were
  // spent, otherwise waiting for a manual retry.
  function AfterFailure(row: ExpiryItem, spent: nat, version: nat, at: Time): ExpiryItem {
    ExpiryItem(row.day, row.card, row.operation, if spent < 3 then ExpPending else ExpManual, row.attemptCount + 1,
      row.automaticRetries + (if spent < 3 then 1 else 0), row.manualRetries, at, None, version)
  }

  // Recovery changes exactly the items in progress whose lease has run out, of those not locked
  // elsewhere, each to the row after a failed attempt, due at once, under a new lease version. The
  // answer counts them; besides items only runs change.
  lemma {:induction false} ItemRecoveryTakesTheLapsed(db: Db, skipped: set<Id>, now1: Time, now2: Time)
    ensures var t := RecoverExpiryItemsTx(db, skipped, now1, now2);
      t.Commit? && t.db == db.(expiryItems := t.db.expiryItems, runs := t.db.runs) &&
      t.db.expiryItems.Keys == db.expiryItems.Keys &&
      t.reply == Count(|set i | i in db.expiryItems && i !in skipped && LapsedItem(db.expiryItems[i], now1)|) &&
      forall i :: i in db.expiryItems ==>
        var row := db.expiryItems[i];
        t.db.expiryItems[i] ==
          if i !in skipped && LapsedItem(row, now1)
          then AfterFailure(row, row.automaticRetries, row.leaseVersion + 1, now2) else row
  {
    hide CompleteRuns, DaysOf, CompleteRun, RecoveredItem, LapsedItem, ItemLeaseExpired, AfterFailure, Ordered;
    var lost := ExpiredItemLeases(db, skipped, now1);
    CompleteAllChangesRunsOnly(db.(expiryItems := RecoveredItems(db, lost, now2)), DaysOf(db, Ordered(ById(lost))));
    assert ById(lost).Keys == lost;
    LapsedIsExpired(db, skipped, now1);
    assert lost == set i | i in db.expiryItems && i !in skipped && LapsedItem(db.expiryItems[i], now1);
    forall i | i in db.expiryItems
      ensures RecoveredItem(db.expiryItems[i], now2) == AfterFailure(db.expiryItems[i],
        db.expiryItems[i].automaticRetries, db.expiryItems[i].leaseVersion + 1, now2)
    {
      RecoveredIsAfterFailure(db.expiryItems[i], now2);
    }
  }

  lemma {:induction false} LapsedIsExpired(db: Db, skipped: set<Id>, now: Time)
    ensures forall i :: i in ExpiredItemLeases(db, skipped, now) <==>
      i in db.expiryItems && i !in skipped && LapsedItem(db.expiryItems[i], now)
  {
  }

  lemma {:induction false} RecoveredIsAfterFailure(row: ExpiryItem, now: Time)
    ensures RecoveredItem(row, now) == AfterFailure(row, row.automaticRetries, row.leaseVersion + 1, now)
  {
  }

  // ----- outcomes -----

  predicate HoldsItem(db: Db, token: ExpiryToken, now: Time) {
    token.item in db.expiryItems &&
    var row := db.expiryItems[token.item];
    row.status == ExpProcessing && row.leaseVersion == token.leaseVersion && row.lease.Some? &&
    row.lease.value.owner == token.owner && now < row.lease.value.until
  }

  // A requeue commits exactly when the claim holds. The token's snapshot of the automatic retries
  // decides; the delay counts from the transaction's reading of the clock.
  lemma {:induction false} RequeueingIsAFailedAttempt(db: Db, token: ExpiryToken, delay: nat, now: Time)
    ensures var t := RequeueExpiryItemTx(db, token, delay, now); var i := token.item;
      if !HoldsItem(db, token, now) then t == Rollback(Stale)
      else
        t.Commit? && t.reply == Done &&
        t.db == db.(runs := t.db.runs, expiryItems := db.expiryItems[i :=
          AfterFailure(db.expiryItems[i], token.automaticRetries, db.expiryItems[i].leaseVersion, now + delay)])
  {
    hide CompletedRun, HasUnresolved;
  }

  // An expiry commits exactly when the claim holds at both guards and the card exists and is not
  // closed. It ends the attempt: skipped when the card was expired already, expired otherwise, and then
  // the card moves with its history row and gets an expiry time if it had none.
  lemma {:induction false} ApplyingExpires(db: Db, token: ExpiryToken, now1: Time, now2: Time)
    ensures var t := ApplyExpiryItemTx(db, token, now1, now2); var i := token.item;
      if !HoldsItem(db, token, now1) then t == Rollback(Stale)
      else if token.card !in db.cards then t == Rollback(NotFound)
      else if db.cards[token.card].status == Closed then t == Rollback(InvalidTransition)
      else if !HoldsItem(db, token, now2) then t == Rollback(Stale)
      else
        var c, row := db.cards[token.card], db.expiryItems[i];
        var was := c.status == Expired;
        t.Commit? && t.reply == Done &&
        t.db == db.(runs := t.db.runs,
          operations := if token.operation in db.operations
            then db.operations[token.operation := db.operations[token.operation].(status := OpSucceeded)]
            else db.operations,
          expiryItems := db.expiryItems[i := row.(status := if was then ExpSkipped else ExpExpired,
            attemptCount := row.attemptCount + 1, lease := None)],
          cards := if was then db.cards else db.cards[token.card :=
            Card(Expired, c.version + 1, c.predecessor, if c.expiresAt.Some? then c.expiresAt else Some(now1))],
          history := if was then db.history
            else db.history + [HistoryRow(token.card, token.operation, c.status, Expired)])
  {
    hide CompletedRun, HasUnresolved;
  }

  // A manual retry commits exactly when the item of that day waits for one and its card exists and is
  // not expired: it is pending again, due at once, with one manual retry more, and its run is open.
  lemma {:induction false} ManualRetryReopens(db: Db, day: Day, item: Id, now: Time)
    ensures var t := ManualRetryTx(db, day, item, now);
      if item in db.expiryItems && db.expiryItems[item].day == day && db.expiryItems[item].status == ExpManual &&
        db.expiryItems[item].card in db.cards && db.cards[db.expiryItems[item].card].status != Expired
      then
        var row := db.expiryItems[item];
        t.Commit? && t.reply == Done &&
        t.db == db.(
          expiryItems := db.expiryItems[item := row.(status := ExpPending, manualRetries := row.manualRetries + 1,
            nextAttemptAt := now)],
          runs := if day in db.runs then db.runs[day := db.runs[day].(completed := false)] else db.runs)
      else t == Rollback(NotRetryable)
  {
    if day in db.runs && !db.runs[day].completed { assert db.runs[day := db.runs[day]] == db.runs; }
  }

  // ----- every move of an item has its call -----

  predicate ItemTurn(row: ExpiryItem, row': ExpiryItem, call: Call, i: Id, now: Time) {
    match (row.status, row'.status)
    case (ExpPending, ExpProcessing) => call.ClaimExpiryItem? && i !in call.skipped && row.nextAttemptAt <= now
    case (ExpProcessing, ExpPending) => FailedBy(row, call, i, now)
    case (ExpProcessing, ExpManual) => FailedBy(row, call, i, now)
    case (ExpProcessing, ExpExpired) => call.ApplyExpiryItem? && call.expiryToken.item == i
    case (ExpProcessing, ExpSkipped) => call.ApplyExpiryItem? && call.expiryToken.item == i
    case (ExpManual, ExpPending) => call == ManualExpiryRetry(row.day, i)
    case _ => row' == row
  }

  predicate FailedBy(row: ExpiryItem, call: Call, i: Id, now: Time) {
    (call.RecoverExpiryItems? && i !in call.skipped && LapsedItem(row, now)) ||
    (call.RequeueExpiryItem? && call.expiryToken.item == i)
  }

  lemma {:induction false} EnsureLeavesItems(db: Db, day: Day, skipped: set<Id>, operations: seq<Id>,
        itemIds: seq<Id>, now: Time, i: Id)
    requires i in db.expiryItems
    ensures var t := EnsureExpiryRunTx(db, day, skipped, operations, itemIds, now);
      t.Commit? ==> i in t.db.expiryItems && t.db.expiryItems[i] == db.expiryItems[i]
  {
    hide SelectedCards;
    var t := EnsureExpiryRunTx(db, day, skipped, operations, itemIds, now);
    if t.Commit? {
      var begun := OpenRun(db, day);
      var cards := SelectedCards(begun, day, skipped);
      ScheduleProgress(if cards != [] then ReopenRun(begun, day) else begun, day, cards, operations, itemIds, now);
    }
  }

  lemma {:induction false} CallTurnsItem(db: Db, call: Call, now1: Time, now2: Time, i: Id)
    requires i in db.expiryItems
    ensures var t := Body(db, call, now1, now2);
      t.Commit? ==> i in t.db.expiryItems && ItemTurn(db.expiryItems[i], t.db.expiryItems[i], call, i, now1)
  {
    if CardCall(call) { CardCallsKeepExpiry(db, call, now1, now2); }
    else if !ExpiryCall(call) { BatchCallsKeepExpiry(db, call, now1, now2); }
    else { ExpiryCallTurnsItem(db, call, now1, now2, i); }
  }

  lemma {:induction false} ExpiryCallTurnsItem(db: Db, call: Call, now1: Time, now2: Time, i: Id)
    requires i in db.expiryItems && ExpiryCall(call)
    ensures var t := Body(db, call, now1, now2);
      t.Commit? ==> i in t.db.expiryItems && ItemTurn(db.expiryItems[i], t.db.expiryItems[i], call, i, now1)
  {
    hide EnsureExpiryRunTx, ClaimExpiryItemTx, RecoverExpiryItemsTx, RequeueExpiryItemTx, ApplyExpiryItemTx;
    hide ManualRetryTx, ItemTurn;
    match call
    case EnsureExpiryRun(day, skipped, operations, itemIds) =>
      EnsureLeavesItems(db, day, skipped, operations, itemIds, now1, i);
      SameRowTurn(db.expiryItems[i], call, i, now1);
    case ClaimExpiryItem(owner, duration, skipped) => ClaimTurnsItem(db, owner, duration, skipped, now1, now2, i);
    case RecoverExpiryItems(skipped) => RecoveryTurnsItem(db, skipped, now1, now2, i);
    case ApplyExpiryItem(token) => ExpiryTurnsItem(db, token, now1, now2, i);
    case RequeueExpiryItem(token, delay) => RequeueTurnsItem(db, token, delay, now1, i);
    case ManualExpiryRetry(day, item) => ManualRetryTurnsItem(db, day, item, now1, i);
  }

  lemma {:induction false} SameRowTurn(row: ExpiryItem, call: Call, i: Id, now: Time)
    ensures ItemTurn(row, row, call, i, now)
  {
  }

  lemma {:induction false} ClaimTurnsItem(db: Db, owner: Owner, duration: nat, skipped: set<Id>, now1: Time,
        now2: Time, i: Id)
    requires i in db.expiryItems
    ensures var d' := ClaimExpiryItemTx(db, owner, duration, skipped, now1, now2).db;
      i in d'.expiryItems &&
      ItemTurn(db.expiryItems[i], d'.expiryItems[i], ClaimExpiryItem(owner, duration, skipped), i, now1)
  {
    hide ClaimExpiryItemTx;
    ItemClaimTakesTheEarliestDue(db, owner, duration, skipped, now1, now2);
  }

  lemma {:induction false} RecoveryTurnsItem(db: Db, skipped: set<Id>, now1: Time, now2: Time, i: Id)
    requires i in db.expiryItems
    ensures var d' := RecoverExpiryItemsTx(db, skipped, now1, now2).db;
      i in d'.expiryItems &&
      ItemTurn(db.expiryItems[i], d'.expiryItems[i], RecoverExpiryItems(skipped), i, now1)
  {
    hide RecoverExpiryItemsTx;
    ItemRecoveryTakesTheLapsed(db, skipped, now1, now2);
  }

  lemma {:induction false} ExpiryTurnsItem(db: Db, token: ExpiryToken, now1: Time, now2: Time, i: Id)
    requires i in db.expiryItems
    ensures var t := ApplyExpiryItemTx(db, token, now1, now2);
      t.Commit? ==>
        i in t.db.expiryItems &&
        ItemTurn(db.expiryItems[i], t.db.expiryItems[i], ApplyExpiryItem(token), i, now1)
  {
    hide ApplyExpiryItemTx;
    ApplyingExpires(db, token, now1, now2);
  }

  lemma {:induction false} RequeueTurnsItem(db: Db, token: ExpiryToken, delay: nat, now: Time, i: Id)
    requires i in db.expiryItems
    ensures var t := RequeueExpiryItemTx(db, token, delay, now);
      t.Commit? ==>
        i in t.db.expiryItems &&
        ItemTurn(db.expiryItems[i], t.db.expiryItems[i], RequeueExpiryItem(token, delay), i, now)
  {
    hide RequeueExpiryItemTx;
    RequeueingIsAFailedAttempt(db, token, delay, now);
  }

  lemma {:induction false} ManualRetryTurnsItem(db: Db, day: Day, item: Id, now: Time, i: Id)
    requires i in db.expiryItems
    ensures var t := ManualRetryTx(db, day, item, now);
      t.Commit? ==>
        i in t.db.expiryItems &&
        ItemTurn(db.expiryItems[i], t.db.expiryItems[i], ManualExpiryRetry(day, item), i, now)
  {
    hide ManualRetryTx;
    ManualRetryReopens(db, day, item, now);
  }

  // In every run an item's row changes only with its status, and every move of the status has its call.
  lemma {:induction false} EveryItemMoveHasItsCall(steps: seq<Step>, k: nat, i: Id)
    requires k < |steps| && i in At(steps, k).db.expiryItems
    ensures i in At(steps, k + 1).db.expiryItems
    ensures ItemTurn(At(steps, k).db.expiryItems[i], At(steps, k + 1).db.expiryItems[i], steps[k].call, i,
      At(steps, k).clock + steps[k].wait1)
    ensures At(steps, k + 1).db.expiryItems[i] != At(steps, k).db.expiryItems[i] ==> CommitsAt(steps, k)
  {
    hide Run, Body;
    var w, s := At(steps, k), steps[k];
    CommittedStep(steps, k);
    CallTurnsItem(w.db, s.call, w.clock + s.wait1, w.clock + s.wait1 + s.wait2, i);
  }

  // ----- how long a claim lives -----

  predicate UsesItemAt(steps: seq<Step>, k: nat, t: ExpiryToken)
    requires k < |steps|
  {
    CommitsAt(steps, k) && LeasedExpiryCall(steps[k].call) && steps[k].call.expiryToken == t
  }

  predicate ItemUsedBetween(steps: seq<Step>, i: nat, j: nat, t: ExpiryToken)
    requires j <= |steps|
  {
    exists k :: i <= k < j && UsesItemAt(steps, k, t)
  }

  predicate ItemAliveUntil(w: World, t: ExpiryToken, until: Time) {
    t.item in w.db.expiryItems &&
    var row := w.db.expiryItems[t.item];
    row.status == ExpProcessing && row.leaseVersion == t.leaseVersion && row.lease == Some(Lease(t.owner, until)) &&
    w.clock < until
  }

  lemma {:induction false} SnapshotOf(steps: seq<Step>, k: nat, t: ExpiryToken)
    requires k <= |steps| && t in At(steps, k).expiryTokens
    ensures SnapshotOk(At(steps, k).db.expiryItems, t)
  {
    hide Run, Inv;
    EveryRunKeepsInv(steps[..k]);
  }

  // Only a live token of the item commits an outcome, and there is no other live one.
  lemma {:induction false} OnlyItsOwnItemUse(steps: seq<Step>, k: nat, t: ExpiryToken, until: Time)
    requires k < |steps| && t in At(steps, k).expiryTokens && ItemAliveUntil(At(steps, k), t, until)
    requires CommitsAt(steps, k) && LeasedExpiryCall(steps[k].call) && steps[k].call.expiryToken.item == t.item
    ensures UsesItemAt(steps, k, t)
  {
    hide Run, Body;
    var u := steps[k].call.expiryToken;
    SnapshotOf(steps, k, t);
    SnapshotOf(steps, k, u);
    if DeadItem(At(steps, k), u) { DeadItemIsRefused(At(steps, k), steps[k]); }
  }

  lemma {:induction false} ItemAliveStep(steps: seq<Step>, k: nat, t: ExpiryToken, until: Time)
    requires k < |steps| && t in At(steps, k).expiryTokens && ItemAliveUntil(At(steps, k), t, until)
    ensures if UsesItemAt(steps, k, t) || At(steps, k + 1).clock >= until then DeadItem(At(steps, k + 1), t)
      else ItemAliveUntil(At(steps, k + 1), t, until)
  {
    hide Run, Body;
    var w, v, s := At(steps, k), At(steps, k + 1), steps[k];
    EveryItemMoveHasItsCall(steps, k, t.item);
    OneStep(steps, k);
    CommittedStep(steps, k);
    if UsesItemAt(steps, k, t) {
      EveryMoveKillsOlderItemTokens(steps, k, t);
    } else {
      if CommitsAt(steps, k) && LeasedExpiryCall(s.call) && s.call.expiryToken.item == t.item {
        OnlyItsOwnItemUse(steps, k, t, until);
      }
      ClockAdvances(w, s, CommitsAt(steps, k));
      if v.db.expiryItems[t.item] != w.db.expiryItems[t.item] { RunsGoForward(steps, k, k + 1); }
    }
  }

  // The life of an item's claim, exactly: until its lease time or its own committed use.
  lemma {:induction false} ItemClaimsLiveTheirLease(steps: seq<Step>, i: nat, j: nat, t: ExpiryToken, until: Time)
    requires i <= j <= |steps| && t in At(steps, i).expiryTokens && ItemAliveUntil(At(steps, i), t, until)
    ensures t in At(steps, j).expiryTokens
    ensures if At(steps, j).clock < until && !ItemUsedBetween(steps, i, j, t)
      then ItemAliveUntil(At(steps, j), t, until) else DeadItem(At(steps, j), t)
  {
    hide Run, Next, ItemAliveUntil, DeadItem, UsesItemAt, ItemUsedBetween;
    if i < j {
      ItemClaimsLiveTheirLease(steps, i, j - 1, t, until);
      RunsGoForward(steps, j - 1, j);
      ItemUsedOneMore(steps, i, j, t);
      if At(steps, j - 1).clock < until && !ItemUsedBetween(steps, i, j - 1, t) {
        ItemAliveStep(steps, j - 1, t, until);
      } else {
        DeadItemPersists(At(steps, j - 1), At(steps, j), t);
      }
    } else {
      ItemNotUsedYet(steps, i, t);
      ItemAliveIsBefore(At(steps, i), t, until);
    }
  }

  lemma {:induction false} ItemUsedOneMore(steps: seq<Step>, i: nat, j: nat, t: ExpiryToken)
    requires i < j <= |steps|
    ensures ItemUsedBetween(steps, i, j, t) <==> ItemUsedBetween(steps, i, j - 1, t) || UsesItemAt(steps, j - 1, t)
  {
    hide UsesItemAt;
  }

  lemma {:induction false} ItemNotUsedYet(steps: seq<Step>, i: nat, t: ExpiryToken)
    requires i <= |steps|
    ensures !ItemUsedBetween(steps, i, i, t)
  {
  }

  lemma {:induction false} ItemAliveIsBefore(w: World, t: ExpiryToken, until: Time)
    requires ItemAliveUntil(w, t, until)
    ensures w.clock < until
  {
  }

  // ----- the delay is honoured -----

  // A pending item changes only by being claimed, when it is due.
  lemma {:induction false} PendingUntilDue(steps: seq<Step>, i: nat, j: nat, item: Id)
    requires i <= j <= |steps| && item in At(steps, i).db.expiryItems
    requires At(steps, i).db.expiryItems[item].status == ExpPending
    ensures item in At(steps, j).db.expiryItems
    ensures At(steps, j).db.expiryItems[item] == At(steps, i).db.expiryItems[item] ||
      At(steps, j).clock >= At(steps, i).db.expiryItems[item].nextAttemptAt
  {
    hide Run, Next;
    if i < j {
      PendingUntilDue(steps, i, j - 1, item);
      RunsGoForward(steps, j - 1, j);
      OneStep(steps, j - 1);
      EveryItemMoveHasItsCall(steps, j - 1, item);
      ClockAdvances(At(steps, j - 1), steps[j-1], CommitsAt(steps, j - 1));
      hide CommitsAt;
    }
  }

  predicate DelaysItemAt(steps: seq<Step>, k: nat, i: Id)
    requires k < |steps|
  {
    CommitsAt(steps, k) && steps[k].call.RequeueExpiryItem? && steps[k].call.expiryToken.item == i
  }

  lemma {:induction false} DelayedItem(steps: seq<Step>, k: nat, i: Id)
    requires k < |steps| && DelaysItemAt(steps, k, i)
    ensures i in At(steps, k + 1).db.expiryItems
    ensures At(steps, k + 1).db.expiryItems[i].nextAttemptAt ==
      At(steps, k).clock + steps[k].wait1 + steps[k].call.delay
  {
    hide Run, RequeueExpiryItemTx;
    CommittedStep(steps, k);
    var w, call := At(steps, k), steps[k].call;
    RequeueingIsAFailedAttempt(w.db, call.expiryToken, call.delay, w.clock + steps[k].wait1);
  }

  lemma {:induction false} ClaimedItemWasDue(steps: seq<Step>, k: nat, i: Id)
    requires k < |steps| && ClaimsItemAt(steps, k, i)
    ensures i in At(steps, k).db.expiryItems
    ensures At(steps, k).db.expiryItems[i].nextAttemptAt <= At(steps, k).clock + steps[k].wait1
  {
    hide Run, ClaimExpiryItemTx;
    var w, call := At(steps, k), steps[k].call;
    ItemClaimTakesTheEarliestDue(w.db, call.owner, call.duration, call.skipped, w.clock + steps[k].wait1,
      w.clock + steps[k].wait1 + steps[k].wait2);
  }

  // Whoever claims a requeued item next does so only after the delay its requeue asked for, when the
  // requeue left it pending.
  lemma {:induction false} ItemDelayIsHonoured(steps: seq<Step>, k: nat, m: nat, i: Id)
    requires k < m < |steps| && DelaysItemAt(steps, k, i) && ClaimsItemAt(steps, m, i)
    requires i in At(steps, k + 1).db.expiryItems && At(steps, k + 1).db.expiryItems[i].status == ExpPending
    ensures At(steps, m).clock + steps[m].wait1 >= At(steps, k).clock + steps[k].wait1 + steps[k].call.delay
  {
    hide Run, ClaimsItemAt, DelaysItemAt;
    DelayedItem(steps, k, i);
    ClaimedItemWasDue(steps, m, i);
    PendingUntilDue(steps, k + 1, m, i);
  }
}
