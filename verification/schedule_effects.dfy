// What scheduling an expiry run leaves behind, written out from the cards and items before.
module ScheduleEffects {
  import opened Wrappers
  import opened RowOrder
  import opened Lifecycle
  import opened Tables
  import opened DraftRequest
  import opened ExpiryTransactions
  import opened DraftEffects

  // An open card, not locked elsewhere, whose expiry date is before the end of the day and that has
  // no item in the day's run.
  predicate Owes(db: Db, day: Day, skipped: set<Id>, card: Id) {
    card in db.cards && card !in skipped &&
    db.cards[card].status in {Pending, Issued, Active, Suspended} &&
    db.cards[card].expiresAt.Some? && db.cards[card].expiresAt.value < (day + 1) * 86_400_000_000 &&
    forall i :: i in db.expiryItems && db.expiryItems[i].day == day ==> db.expiryItems[i].card != card
  }

  function Owing(db: Db, day: Day, skipped: set<Id>): set<Id> {
    set c | c in db.cards && Owes(db, day, skipped, c)
  }

  // The 200 least of the cards that owe, or all of them when there are no more.
  predicate Selected(cards: seq<Id>, owing: set<Id>) {
    StrictlyAscending(cards) && (forall c :: c in cards ==> c in owing) &&
    |cards| == (if |owing| <= 200 then |owing| else 200) &&
    (|owing| <= 200 ==> forall c :: c in owing ==> c in cards) &&
    forall c, d :: c in cards && d in owing && d < c ==> d in cards
  }

  lemma {:induction false} DueIsOwing(db: Db, day: Day, skipped: set<Id>)
    ensures DueCards(OpenRun(db, day), day, skipped).Keys == Owing(db, day, skipped)
  {
    var begun := OpenRun(db, day);
    forall c | c in db.cards ensures Scheduled(begun, day, c) <==>
      !(forall i :: i in db.expiryItems && db.expiryItems[i].day == day ==> db.expiryItems[i].card != c)
    {
    }
  }

  lemma {:induction false} SelectionIsTheLeast(db: Db, day: Day, skipped: set<Id>)
    ensures Selected(SelectedCards(OpenRun(db, day), day, skipped), Owing(db, day, skipped))
  {
    DueIsOwing(db, day, skipped);
    var due := DueCards(OpenRun(db, day), day, skipped);
    KeyIsTheCard(OpenRun(db, day), day, skipped);
    hide DueCards, Owing, Owes, OpenRun;
    LeastOf(due, Ordered(due));
  }

  lemma {:induction false} KeyIsTheCard(db: Db, day: Day, skipped: set<Id>)
    ensures forall c :: c in DueCards(db, day, skipped) ==> DueCards(db, day, skipped)[c] == c
  {
  }

  lemma {:induction false} LeastOf(due: map<Id, int>, all: seq<Id>)
    requires forall c :: c in due ==> due[c] == c
    requires all == Ordered(due)
    ensures Selected(if |all| <= 200 then all else all[..200], due.Keys)
  {
    hide Selected;
    forall i, j | 0 <= i < j < |all| ensures all[i] < all[j] {
      assert all[i] in all && all[j] in all;
      assert Before(due, all[i], all[j]);
    }
    hide Ordered;
    if |all| <= 200 { WholeIsLeast(all, due.Keys); } else { PrefixIsLeast(all, due.Keys); }
  }

  lemma {:induction false} WholeIsLeast(all: seq<Id>, owing: set<Id>)
    requires StrictlyAscending(all) && |all| == |owing| <= 200 && forall c :: c in all <==> c in owing
    ensures Selected(all, owing)
  {
  }

  lemma {:induction false} PrefixIsLeast(all: seq<Id>, owing: set<Id>)
    requires StrictlyAscending(all) && |all| == |owing| > 200 && forall c :: c in all <==> c in owing
    ensures Selected(all[..200], owing)
  {
    var cards := all[..200];
    forall c | c in cards ensures c in owing { assert c in all; }
    forall c, d | c in cards && d in owing && d < c ensures d in cards {
      var i :| 0 <= i < |cards| && cards[i] == c;
      assert d in all;
      var j :| 0 <= j < |all| && all[j] == d;
      Smaller(all, j, i);
      assert cards[j] == d;
    }
  }

  lemma {:induction false} Smaller(s: seq<Id>, j: nat, i: nat)
    requires StrictlyAscending(s) && j < |s| && i < |s| && s[j] < s[i]
    ensures j < i
  {
  }

  // ----- the inserted items -----

  ghost predicate ExpiryItemsAdded(db: Db, d': Db, day: Day, cards: seq<Id>, operations: seq<Id>, itemIds: seq<Id>,
        now: Time)
    requires |cards| == |operations| == |itemIds|
  {
    (forall i :: i in d'.expiryItems <==> i in db.expiryItems || i in itemIds) &&
    (forall i :: i in db.expiryItems ==> i in d'.expiryItems && d'.expiryItems[i] == db.expiryItems[i]) &&
    forall k :: 0 <= k < |cards| ==>
      itemIds[k] in d'.expiryItems &&
      d'.expiryItems[itemIds[k]] == ExpiryItem(day, cards[k], operations[k], ExpPending, 0, 0, 0, now, None, 0)
  }

  predicate Unscheduled(db: Db, day: Day, cards: seq<Id>) {
    StrictlyAscending(cards) && forall k :: 0 <= k < |cards| ==> !Scheduled(db, day, cards[k])
  }

  lemma {:induction false} CardsAreScheduled(db: Db, day: Day, cards: seq<Id>, operations: seq<Id>, itemIds: seq<Id>,
        now: Time)
    requires |cards| <= |operations| && |cards| <= |itemIds| && Unscheduled(db, day, cards)
    ensures var t := ScheduleCards(db, day, cards, operations, itemIds, now);
      var n := |cards|;
      (t.Commit? <==> Unused(operations[..n], db.operations.Keys) && Unused(itemIds[..n], db.expiryItems.Keys)) &&
      (t.Rollback? ==> t.error == UniqueViolation) &&
      (t.Commit? ==>
        t.db == db.(operations := t.db.operations, expiryItems := t.db.expiryItems) &&
        OperationsAdded(db, t.db, Expire, cards, operations[..n]) &&
        ExpiryItemsAdded(db, t.db, day, cards, operations[..n], itemIds[..n], now))
  {
    if cards != [] {
      var n := |cards| - 1;
      CardsAreScheduled(db, day, cards[..n], operations, itemIds, now);
      UnusedLast(operations[..n+1], db.operations.Keys);
      UnusedLast(itemIds[..n+1], db.expiryItems.Keys);
      assert operations[..n+1][..n] == operations[..n] && itemIds[..n+1][..n] == itemIds[..n];
      hide Unused, Unscheduled, OperationsAdded, ExpiryItemsAdded, IsNew, ScheduleCard;
      var before := ScheduleCards(db, day, cards[..n], operations, itemIds, now);
      if before.Commit? { OneMoreCard(db, before.db, day, cards, operations[..n+1], itemIds[..n+1], now); }
    }
  }

  lemma {:induction false} OneMoreCard(db: Db, d: Db, day: Day, cards: seq<Id>, operations: seq<Id>, itemIds: seq<Id>,
        now: Time)
    requires |cards| == |operations| == |itemIds| && cards != [] && Unscheduled(db, day, cards)
    requires var n := |cards| - 1;
      OperationsAdded(db, d, Expire, cards[..n], operations[..n]) &&
      ExpiryItemsAdded(db, d, day, cards[..n], operations[..n], itemIds[..n], now)
    ensures var n := |cards| - 1; var t := ScheduleCard(d, day, cards[n], operations[n], itemIds[n], now);
      (t.Commit? <==> IsNew(operations, db.operations.Keys) && IsNew(itemIds, db.expiryItems.Keys)) &&
      (t.Rollback? ==> t.error == UniqueViolation) &&
      (t.Commit? ==>
        t.db == d.(operations := t.db.operations, expiryItems := t.db.expiryItems) &&
        OperationsAdded(db, t.db, Expire, cards, operations) &&
        ExpiryItemsAdded(db, t.db, day, cards, operations, itemIds, now))
  {
    hide IsNew, OperationsAdded, ExpiryItemsAdded, Scheduled, Unscheduled;
    var n := |cards| - 1;
    LastIsUnscheduled(db, d, day, cards, operations[..n], itemIds[..n], now);
    var t := ScheduleCard(d, day, cards[n], operations[n], itemIds[n], now);
    var d' := if t.Commit? then t.db else d;
    SameSchedule(d, day, cards[n], operations[n]);
    OneMoreOperation(db, d, d', Expire, cards, operations);
    OneMoreExpiryRow(db, d, d', day, cards, operations, itemIds, now);
  }

  lemma {:induction false} SameSchedule(d: Db, day: Day, card: Id, operation: Id)
    ensures Scheduled(d.(operations := d.operations[operation := Operation(card, Expire, OpQueued)]), day, card) ==
      Scheduled(d, day, card)
  {
  }

  lemma {:induction false} LastIsUnscheduled(db: Db, d: Db, day: Day, cards: seq<Id>, operations: seq<Id>,
        itemIds: seq<Id>, now: Time)
    requires cards != [] && |operations| == |itemIds| == |cards| - 1 && Unscheduled(db, day, cards)
    requires ExpiryItemsAdded(db, d, day, cards[..|cards|-1], operations, itemIds, now)
    ensures !Scheduled(d, day, cards[|cards|-1])
  {
    var n := |cards| - 1;
    forall i | i in d.expiryItems && d.expiryItems[i].day == day ensures d.expiryItems[i].card != cards[n] {
      if i in db.expiryItems {
        assert !Scheduled(db, day, cards[n]);
      } else {
        var k :| 0 <= k < n && itemIds[k] == i;
        assert d.expiryItems[itemIds[k]].card == cards[..n][k] == cards[k];
      }
    }
  }

  lemma {:induction false} OneMoreExpiryRow(db: Db, d: Db, d': Db, day: Day, cards: seq<Id>, operations: seq<Id>,
        itemIds: seq<Id>,
        now: Time)
    requires |cards| == |operations| == |itemIds| && cards != []
    requires var n := |cards| - 1; ExpiryItemsAdded(db, d, day, cards[..n], operations[..n], itemIds[..n], now)
    ensures var n := |cards| - 1; var i := itemIds[n];
      (i in d.expiryItems <==> !IsNew(itemIds, db.expiryItems.Keys)) &&
      (i !in d.expiryItems && d'.expiryItems == d.expiryItems[i := NewExpiryItem(day, cards[n], operations[n], now)] ==>
        ExpiryItemsAdded(db, d', day, cards, operations, itemIds, now))
  {
    var n := |cards| - 1;
    assert itemIds == itemIds[..n] + [itemIds[n]];
    forall k | 0 <= k < n
      ensures itemIds[k] in d.expiryItems && d.expiryItems[itemIds[k]] ==
        ExpiryItem(day, cards[k], operations[k], ExpPending, 0, 0, 0, now, None, 0)
    {
      assert operations[..n][k] == operations[k] && itemIds[..n][k] == itemIds[k] && cards[..n][k] == cards[k];
    }
  }

  // ----- the whole transaction -----

  lemma {:induction false} SelectedAreUnscheduled(db: Db, day: Day, skipped: set<Id>, cards: seq<Id>)
    requires Selected(cards, Owing(db, day, skipped))
    ensures Unscheduled(OpenRun(db, day), day, cards) && Unscheduled(ReopenRun(OpenRun(db, day), day), day, cards)
  {
    forall k | 0 <= k < |cards| ensures Owes(db, day, skipped, cards[k]) { assert cards[k] in cards; }
  }

  function RunRow(db: Db, day: Day): ExpiryRun {
    if day in db.runs then db.runs[day] else ExpiryRun(false, 0, 0, 0, 0)
  }

  // One pending item with a queued operation for each of the cards; the run open if there is any, and
  // its count right; nothing else changed.
  ghost predicate ScheduledFor(db: Db, d': Db, day: Day, cards: seq<Id>, operations: seq<Id>, itemIds: seq<Id>,
        now: Time) {
    |cards| == |operations| == |itemIds| &&
    OperationsAdded(db, d', Expire, cards, operations) &&
    ExpiryItemsAdded(db, d', day, cards, operations, itemIds, now) &&
    var run := RunRow(db, day);
    d' == db.(operations := d'.operations, expiryItems := d'.expiryItems, runs := db.runs[day := run.(
      completed := run.completed && cards == [],
      itemCount := |set i | i in d'.expiryItems && d'.expiryItems[i].day == day|)])
  }

  function Opened(db: Db, day: Day, cards: seq<Id>): Db {
    if cards != [] then ReopenRun(OpenRun(db, day), day) else OpenRun(db, day)
  }

  lemma {:induction false} CountingFinishes(db: Db, d: Db, day: Day, cards: seq<Id>, operations: seq<Id>,
        itemIds: seq<Id>, now: Time)
    requires |cards| == |operations| == |itemIds|
    requires var ready := Opened(db, day, cards);
      d == ready.(operations := d.operations, expiryItems := d.expiryItems) &&
      OperationsAdded(ready, d, Expire, cards, operations) &&
      ExpiryItemsAdded(ready, d, day, cards, operations, itemIds, now)
    ensures ScheduledFor(db, CountRun(d, day), day, cards, operations, itemIds, now)
  {
    hide OperationsAdded, ExpiryItemsAdded, RunRow, CountRun;
    var ready := Opened(db, day, cards);
    OpenedRow(db, day, cards);
    RunIsCounted(db, d, day, cards);
    SameRows(db, ready, d, day, cards, operations, itemIds, now);
  }

  lemma {:induction false} RunIsCounted(db: Db, d: Db, day: Day, cards: seq<Id>)
    requires d == Opened(db, day, cards).(operations := d.operations, expiryItems := d.expiryItems)
    ensures CountRun(d, day) ==
      db.(operations := d.operations, expiryItems := d.expiryItems, runs := db.runs[day := RunRow(db, day).(
        completed := RunRow(db, day).completed && cards == [],
        itemCount := |set i | i in d.expiryItems && d.expiryItems[i].day == day|)])
  {
    OpenedRow(db, day, cards);
    hide Opened;
    var row := RunRow(db, day).(completed := RunRow(db, day).completed && cards == []);
    var count := |ItemsOfRun(d.expiryItems, day)|;
    assert ItemsOfRun(d.expiryItems, day) == set i | i in d.expiryItems && d.expiryItems[i].day == day;
    assert d.runs == db.runs[day := row];
    hide RunRow;
    assert db.runs[day := row][day := row.(itemCount := count)] == db.runs[day := row.(itemCount := count)];
  }

  lemma {:induction false} OpenedRow(db: Db, day: Day, cards: seq<Id>)
    ensures Opened(db, day, cards) ==
      db.(runs := db.runs[day := RunRow(db, day).(completed := RunRow(db, day).completed && cards == [])])
  {
    if day in db.runs {
      assert db.runs[day := db.runs[day]] == db.runs;
    } else {
      var open := ExpiryRun(false, 0, 0, 0, 0);
      assert db.runs[day := open][day := open] == db.runs[day := open];
    }
  }

  // The runs table plays no part in what is added to the others.
  lemma {:induction false} SameRows(db: Db, ready: Db, d: Db, day: Day, cards: seq<Id>, operations: seq<Id>,
        itemIds: seq<Id>, now: Time)
    requires |cards| == |operations| == |itemIds|
    requires ready.operations == db.operations && ready.expiryItems == db.expiryItems
    requires OperationsAdded(ready, d, Expire, cards, operations)
    requires ExpiryItemsAdded(ready, d, day, cards, operations, itemIds, now)
    ensures OperationsAdded(db, CountRun(d, day), Expire, cards, operations)
    ensures ExpiryItemsAdded(db, CountRun(d, day), day, cards, operations, itemIds, now)
  {
    assert CountRun(d, day).operations == d.operations && CountRun(d, day).expiryItems == d.expiryItems;
    hide CountRun;
  }

  // Scheduling takes the least 200 of the cards that owe an expiry, and commits exactly when there is
  // an unused operation and item id for each.
  lemma {:induction false} EnsureSchedulesWhoOwes(db: Db, day: Day, skipped: set<Id>, operations: seq<Id>,
        itemIds: seq<Id>, now: Time)
      returns (cards: seq<Id>)
    ensures Selected(cards, Owing(db, day, skipped))
    ensures var t := EnsureExpiryRunTx(db, day, skipped, operations, itemIds, now); var n := |cards|;
      if |operations| < n || |itemIds| < n then t == Rollback(MissingId)
      else if !Unused(operations[..n], db.operations.Keys) || !Unused(itemIds[..n], db.expiryItems.Keys) then
        t == Rollback(UniqueViolation)
      else
        t.Commit? && t.reply == Done && ScheduledFor(db, t.db, day, cards, operations[..n], itemIds[..n], now)
  {
    hide SelectedCards, Owing, Selected, Unused, OperationsAdded, ExpiryItemsAdded, Unscheduled, ScheduleCards;
    hide ScheduledFor, CountRun;
    SelectionIsTheLeast(db, day, skipped);
    cards := SelectedCards(OpenRun(db, day), day, skipped);
    SelectedAreUnscheduled(db, day, skipped, cards);
    var n := |cards|;
    if n <= |operations| && n <= |itemIds| {
      var ready := Opened(db, day, cards);
      CardsAreScheduled(ready, day, cards, operations, itemIds, now);
      var t := ScheduleCards(ready, day, cards, operations, itemIds, now);
      if t.Commit? { CountingFinishes(db, t.db, day, cards, operations[..n], itemIds[..n], now); }
    }
  }

  // With no more than 200 such cards, each of them has its new item after the transaction.
  lemma {:induction false} EnsureSchedulesTheDue(db: Db, day: Day, skipped: set<Id>, operations: seq<Id>,
        itemIds: seq<Id>, now: Time, card: Id)
    requires |Owing(db, day, skipped)| <= 200 && card in Owing(db, day, skipped)
    ensures var t := EnsureExpiryRunTx(db, day, skipped, operations, itemIds, now);
      t.Commit? ==>
        exists i :: i in t.db.expiryItems && i !in db.expiryItems && t.db.expiryItems[i].day == day &&
          t.db.expiryItems[i].card == card && t.db.expiryItems[i].status == ExpPending
  {
    hide EnsureExpiryRunTx, OperationsAdded, Owing;
    var t := EnsureExpiryRunTx(db, day, skipped, operations, itemIds, now);
    var cards := EnsureSchedulesWhoOwes(db, day, skipped, operations, itemIds, now);
    if t.Commit? {
      var k :| 0 <= k < |cards| && cards[k] == card;
      assert itemIds[..|cards|][k] == itemIds[k];
      assert t.db.expiryItems[itemIds[k]].card == card;
    }
  }
}
