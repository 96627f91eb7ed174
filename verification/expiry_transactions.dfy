// Scheduled expiry: runs, per-card items with bounded retries, and the manual retry.
module ExpiryTransactions {
  import opened Wrappers
  import opened RowOrder
  import opened Lifecycle
  import opened Tables
  import opened CardTransactions

  const EXPIRY_SCHEDULE_BATCH_SIZE := 200
  const AUTOMATIC_RETRY_LIMIT := 3

  predicate Unresolved(item: ExpiryItem) {
    item.status == ExpPending || item.status == ExpProcessing
  }

  function ItemsOfRun(expiryItems: map<Id, ExpiryItem>, day: Day): set<Id> {
    set i | i in expiryItems && expiryItems[i].day == day
  }

  function Tally(expiryItems: map<Id, ExpiryItem>, day: Day, status: ExpiryStatus): set<Id> {
    set i | i in expiryItems && expiryItems[i].day == day && expiryItems[i].status == status
  }

  predicate HasUnresolved(expiryItems: map<Id, ExpiryItem>, day: Day) {
    exists i :: i in expiryItems && expiryItems[i].day == day && Unresolved(expiryItems[i])
  }

  function CompletedRun(run: ExpiryRun, expiryItems: map<Id, ExpiryItem>, day: Day): ExpiryRun {
    run.(completed := true,
         expiredCount := |Tally(expiryItems, day, ExpExpired)|,
         skippedCount := |Tally(expiryItems, day, ExpSkipped)|,
         manualCount := |Tally(expiryItems, day, ExpManual)|)
  }

  // completeExpiryRun
  function CompleteRun(db: Db, day: Day): Db {
    if day in db.runs && !db.runs[day].completed && !HasUnresolved(db.expiryItems, day)
    then db.(runs := db.runs[day := CompletedRun(db.runs[day], db.expiryItems, day)])
    else db
  }

  function CompleteRuns(db: Db, days: seq<Day>): Db {
    if days == [] then db
    else CompleteRun(CompleteRuns(db, days[..|days|-1]), days[|days|-1])
  }

  // ----- scheduling -----

  predicate Scheduled(db: Db, day: Day, card: Id) {
    exists i :: i in db.expiryItems && db.expiryItems[i].day == day && db.expiryItems[i].card == card
  }

  predicate DueForExpiry(db: Db, day: Day, card: Id) {
    card in db.cards && !Final(db.cards[card].status) && db.cards[card].expiresAt.Some? &&
    db.cards[card].expiresAt.value < (day + 1) * DAY_LENGTH && !Scheduled(db, day, card)
  }

  function DueCards(db: Db, day: Day, skipped: set<Id>): map<Id, int> {
    map c | c in db.cards && DueForExpiry(db, day, c) && c !in skipped :: c as int
  }

  function SelectedCards(db: Db, day: Day, skipped: set<Id>): seq<Id> {
    var all := Ordered(DueCards(db, day, skipped));
    if |all| <= EXPIRY_SCHEDULE_BATCH_SIZE then all else all[..EXPIRY_SCHEDULE_BATCH_SIZE]
  }

  function NewExpiryItem(day: Day, card: Id, operation: Id, now: Time): ExpiryItem {
    ExpiryItem(day, card, operation, ExpPending, 0, 0, 0, now, None, 0)
  }

  // INSERT the queued operation, then the item unless the run already holds the card.
  function ScheduleCard(db: Db, day: Day, card: Id, operation: Id, item: Id, now: Time): Tx {
    if operation in db.operations then Rollback(UniqueViolation)
    else
      var d := db.(operations := db.operations[operation := Operation(card, Expire, OpQueued)]);
      if Scheduled(d, day, card) then Commit(d, Done)
      else if item in d.expiryItems then Rollback(UniqueViolation)
      else Commit(d.(expiryItems := d.expiryItems[item := NewExpiryItem(day, card, operation, now)]), Done)
  }

  function ScheduleCards(db: Db, day: Day, cards: seq<Id>, operations: seq<Id>, itemIds: seq<Id>, now: Time): Tx
    requires |cards| <= |operations| && |cards| <= |itemIds|
  {
    if cards == [] then Commit(db, Done)
    else
      var n := |cards| - 1;
      var before := ScheduleCards(db, day, cards[..n], operations, itemIds, now);
      if before.Rollback? then before else ScheduleCard(before.db, day, cards[n], operations[n], itemIds[n], now)
  }

  function OpenRun(db: Db, day: Day): Db {
    if day in db.runs then db else db.(runs := db.runs[day := ExpiryRun(false, 0, 0, 0, 0)])
  }

  function ReopenRun(db: Db, day: Day): Db {
    if day in db.runs then db.(runs := db.runs[day := db.runs[day].(completed := false)]) else db
  }

  function CountRun(db: Db, day: Day): Db {
    if day in db.runs
    then db.(runs := db.runs[day := db.runs[day].(itemCount := |ItemsOfRun(db.expiryItems, day)|)])
    else db
  }

  function EnsureExpiryRunTx(db: Db, day: Day, skipped: set<Id>, operations: seq<Id>, itemIds: seq<Id>, now: Time): Tx {
    var begun := OpenRun(db, day);
    var cards := SelectedCards(begun, day, skipped);
    if |operations| < |cards| || |itemIds| < |cards| then Rollback(MissingId)
    else
      var ready := if cards != [] then ReopenRun(begun, day) else begun;
      var scheduled := ScheduleCards(ready, day, cards, operations, itemIds, now);
      if scheduled.Rollback? then scheduled else Commit(CountRun(scheduled.db, day), Done)
  }

  // ----- leased execution -----

  predicate ExpiryLeaseHeld(db: Db, token: ExpiryToken, now: Time) {
    token.item in db.expiryItems &&
    var row := db.expiryItems[token.item];
    row.status == ExpProcessing && row.lease.Some? && row.lease.value.owner == token.owner &&
    row.leaseVersion == token.leaseVersion && row.lease.value.until > now
  }

  function DueItems(db: Db, skipped: set<Id>, now: Time): map<Id, int> {
    map i | i in db.expiryItems && db.expiryItems[i].status == ExpPending &&
            db.expiryItems[i].nextAttemptAt <= now && i !in skipped
      :: db.expiryItems[i].nextAttemptAt as int
  }

  function ClaimedItem(row: ExpiryItem, owner: Owner, until: Time): ExpiryItem {
    row.(status := ExpProcessing, lease := Some(Lease(owner, until)), leaseVersion := row.leaseVersion + 1)
  }

  function ClaimExpiryItemTx(db: Db, owner: Owner, duration: nat, skipped: set<Id>, now1: Time, now2: Time): Tx {
    var due := DueItems(db, skipped, now1);
    if due.Keys == {} then Commit(db, NoWork)
    else
      var i := Least(due);
      var row := ClaimedItem(db.expiryItems[i], owner, now2 + duration);
      Commit(db.(expiryItems := db.expiryItems[i := row]),
             ExpiryWork(ExpiryToken(i, row.day, row.card, row.operation, owner, row.leaseVersion,
                 row.automaticRetries)))
  }

  predicate ItemLeaseExpired(row: ExpiryItem, now: Time) {
    row.status == ExpProcessing && row.lease.Some? && row.lease.value.until <= now
  }

  function ExpiredItemLeases(db: Db, skipped: set<Id>, now: Time): set<Id> {
    set i | i in db.expiryItems && ItemLeaseExpired(db.expiryItems[i], now) && i !in skipped
  }

  // A failed or abandoned attempt: another automatic retry, or the manual queue after three.
  function Failed(row: ExpiryItem, exhausted: bool, at: Time): ExpiryItem {
    row.(status := if exhausted then ExpManual else ExpPending,
         attemptCount := row.attemptCount + 1,
         automaticRetries := row.automaticRetries + (if exhausted then 0 else 1),
         lease := None, nextAttemptAt := at)
  }

  function RecoveredItem(row: ExpiryItem, now: Time): ExpiryItem {
    Failed(row, row.automaticRetries >= AUTOMATIC_RETRY_LIMIT, now).(leaseVersion := row.leaseVersion + 1)
  }

  function RecoveredItems(db: Db, lost: set<Id>, now: Time): map<Id, ExpiryItem> {
    map i | i in db.expiryItems :: if i in lost then RecoveredItem(db.expiryItems[i], now) else db.expiryItems[i]
  }

  // The run of each recovered row, in the order the rows come back.
  function DaysOf(db: Db, ids: seq<Id>): seq<Day>
    requires forall x :: x in ids ==> x in db.expiryItems
  {
    seq(|ids|, k requires 0 <= k < |ids| => assert ids[k] in ids; db.expiryItems[ids[k]].day)
  }

  function ById(ids: set<Id>): map<Id, int> {
    map i | i in ids :: i as int
  }

  function RecoverExpiryItemsTx(db: Db, skipped: set<Id>, now1: Time, now2: Time): Tx {
    var lost := ExpiredItemLeases(db, skipped, now1);
    var ids := Ordered(ById(lost));
    var d := db.(expiryItems := RecoveredItems(db, lost, now2));
    Commit(CompleteRuns(d, DaysOf(db, ids)), Count(|ids|))
  }

  function ResolvedItem(row: ExpiryItem, result: ExpiryStatus): ExpiryItem {
    row.(status := result, attemptCount := row.attemptCount + 1, lease := None)
  }

  function SucceedOperation(operations: map<Id, Operation>, id: Id): map<Id, Operation> {
    if id in operations then operations[id := operations[id].(status := OpSucceeded)] else operations
  }

  function StampExpiry(db: Db, card: Id, now: Time): Db {
    if card in db.cards && db.cards[card].expiresAt.None?
    then db.(cards := db.cards[card := db.cards[card].(expiresAt := Some(now))])
    else db
  }

  function ApplyExpiryItemTx(db: Db, token: ExpiryToken, now1: Time, now2: Time): Tx {
    if !ExpiryLeaseHeld(db, token, now1) then Rollback(Stale)
    else if token.card !in db.cards then Rollback(NotFound)
    else
      var was := db.cards[token.card].status;
      if was != Expired && !Transition(was, Expire).valid then Rollback(InvalidTransition)
      else if !ExpiryLeaseHeld(db, token, now2) then Rollback(Stale)
      else
        var expired := if was == Expired then db
                       else StampExpiry(Post(db, token.card, token.operation, was, Expired), token.card, now1);
        var result := if was == Expired then ExpSkipped else ExpExpired;
        Commit(CompleteRun(expired.(
          operations := SucceedOperation(db.operations, token.operation),
          expiryItems := db.expiryItems[token.item := ResolvedItem(db.expiryItems[token.item],
              result)]), token.day), Done)
  }

  // The decision uses the retry count snapshot in the claim, not the row.
  function RequeueExpiryItemTx(db: Db, token: ExpiryToken, delay: nat, now: Time): Tx {
    if !ExpiryLeaseHeld(db, token, now) then Rollback(Stale)
    else
      var row := Failed(db.expiryItems[token.item], token.automaticRetries >= AUTOMATIC_RETRY_LIMIT, now + delay);
      Commit(CompleteRun(db.(expiryItems := db.expiryItems[token.item := row]), token.day), Done)
  }

  // RetryExpiryItem inside RetryExpiryWorkflow, which rolls back when no row was eligible.
  function ManualRetryTx(db: Db, day: Day, item: Id, now: Time): Tx {
    var known := item in db.expiryItems && db.expiryItems[item].day == day && db.expiryItems[item].status == ExpManual;
    var reopenedDb := if known && day in db.runs && db.runs[day].completed then ReopenRun(db, day) else db;
    if known && db.expiryItems[item].card in db.cards && db.cards[db.expiryItems[item].card].status != Expired then
      var row := db.expiryItems[item];
      Commit(reopenedDb.(expiryItems := db.expiryItems[item := row.(status := ExpPending,
                       manualRetries := row.manualRetries + 1, nextAttemptAt := now)]), Done)
    else Rollback(NotRetryable)
  }
}
