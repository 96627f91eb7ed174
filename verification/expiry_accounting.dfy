// Attempt accounting of expiry items and the totals of expiry runs.
module ExpiryAccounting {
  import opened RowOrder
  import opened Tables
  import opened ExpiryTransactions

  predicate Settled(item: ExpiryItem) {
    item.status == ExpManual || item.status == ExpExpired || item.status == ExpSkipped
  }

  // Every attempt is an automatic retry spent, a manual retry spent, or the one that settled the
  // item; manual retries come only after the three automatic ones.
  predicate AccountOk(item: ExpiryItem) {
    item.attemptCount == item.automaticRetries + item.manualRetries + (if Settled(item) then 1 else 0) &&
    item.automaticRetries <= AUTOMATIC_RETRY_LIMIT &&
    (item.status == ExpManual || item.manualRetries > 0 ==> item.automaticRetries == AUTOMATIC_RETRY_LIMIT) &&
    (item.lease.Some? <==> item.status == ExpProcessing)
  }

  predicate AccountsOk(expiryItems: map<Id, ExpiryItem>) {
    forall i :: i in expiryItems ==> AccountOk(expiryItems[i])
  }

  // An item is attempted at most four times, and once more per manual retry.
  lemma {:induction false} AttemptsAreBounded(item: ExpiryItem)
    requires AccountOk(item)
    ensures item.attemptCount <= 4 + item.manualRetries
    ensures item.status == ExpManual ==> item.attemptCount == 4 + item.manualRetries
  {
  }

  predicate RunOk(day: Day, run: ExpiryRun, expiryItems: map<Id, ExpiryItem>) {
    run.itemCount == |ItemsOfRun(expiryItems, day)| &&
    (run.completed ==>
      !HasUnresolved(expiryItems, day) &&
      run.expiredCount == |Tally(expiryItems, day, ExpExpired)| &&
      run.skippedCount == |Tally(expiryItems, day, ExpSkipped)| &&
      run.manualCount == |Tally(expiryItems, day, ExpManual)|)
  }

  predicate RunsOk(runs: map<Day, ExpiryRun>, expiryItems: map<Id, ExpiryItem>) {
    forall d :: d in runs ==> RunOk(d, runs[d], expiryItems)
  }

  // The counts of a completed run account for each of its items once.
  lemma {:induction false} CompletedCountsAddUp(day: Day, run: ExpiryRun, expiryItems: map<Id, ExpiryItem>)
    requires RunOk(day, run, expiryItems) && run.completed
    ensures run.expiredCount + run.skippedCount + run.manualCount == run.itemCount
  {
    var e, s, m := Tally(expiryItems, day, ExpExpired), Tally(expiryItems, day, ExpSkipped), Tally(expiryItems, day,
        ExpManual);
    forall i | i in ItemsOfRun(expiryItems, day) ensures i in e + s + m {
      assert !Unresolved(expiryItems[i]);
    }
    assert ItemsOfRun(expiryItems, day) == e + s + m;
    assert |e + s| == |e| + |s| && |e + s + m| == |e + s| + |m|;
  }

  // completeExpiryRun keeps every run's totals right.
  lemma {:induction false} CompleteKeepsRuns(db: Db, day: Day)
    requires RunsOk(db.runs, db.expiryItems)
    ensures RunsOk(CompleteRun(db, day).runs, db.expiryItems)
    ensures CompleteRun(db, day) == db.(runs := CompleteRun(db, day).runs)
    ensures CompleteRun(db, day).runs.Keys == db.runs.Keys
  {
    var d := CompleteRun(db, day);
    forall k | k in d.runs ensures RunOk(k, d.runs[k], db.expiryItems) {
      assert RunOk(k, db.runs[k], db.expiryItems);
    }
  }

  lemma {:induction false} CompleteAllKeepsRuns(db: Db, days: seq<Day>)
    requires RunsOk(db.runs, db.expiryItems)
    ensures RunsOk(CompleteRuns(db, days).runs, db.expiryItems)
    ensures CompleteRuns(db, days) == db.(runs := CompleteRuns(db, days).runs)
    ensures CompleteRuns(db, days).runs.Keys == db.runs.Keys
  {
    if days != [] {
      var n := |days| - 1;
      CompleteAllKeepsRuns(db, days[..n]);
      CompleteKeepsRuns(CompleteRuns(db, days[..n]), days[n]);
    }
  }

  // Changing items of runs that are still open keeps the runs; membership must not change.
  lemma {:induction false} OpenRunsAbsorbChanges(runs: map<Day, ExpiryRun>, items: map<Id, ExpiryItem>,
        items': map<Id, ExpiryItem>)
    requires RunsOk(runs, items)
    requires items.Keys == items'.Keys
    requires forall i :: i in items ==> items'[i].day == items[i].day
    requires forall i :: i in items && items'[i] != items[i] && items[i].day in runs ==> !runs[items[i].day].completed
    ensures RunsOk(runs, items')
  {
    forall d | d in runs ensures RunOk(d, runs[d], items') {
      assert RunOk(d, runs[d], items);
      assert ItemsOfRun(items', d) == ItemsOfRun(items, d);
      if runs[d].completed {
        assert Tally(items', d, ExpExpired) == Tally(items, d, ExpExpired);
        assert Tally(items', d, ExpSkipped) == Tally(items, d, ExpSkipped);
        assert Tally(items', d, ExpManual) == Tally(items, d, ExpManual);
      }
    }
  }

  // A run with an unresolved item is open.
  lemma {:induction false} UnresolvedRunIsOpen(runs: map<Day, ExpiryRun>, items: map<Id, ExpiryItem>, i: Id)
    requires RunsOk(runs, items) && i in items && items[i].day in runs && Unresolved(items[i])
    ensures !runs[items[i].day].completed
  {
    assert RunOk(items[i].day, runs[items[i].day], items);
  }
}
