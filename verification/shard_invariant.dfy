// The invariant of the shard, and the card writers that keep it.
module ShardInvariant {
  import opened Wrappers
  import opened RowOrder
  import opened Lifecycle
  import opened Tables
  import opened CardTransactions
  import opened CardLedger
  import opened Evidence
  import opened ReplacementForest
  import opened RetryLineage
  import opened ExpiryAccounting

  predicate CardsInv(db: Db) {
    LedgerOk(db.cards, db.history) && ForestOk(db.cards, db.history) && HistoryOwned(db.operations, db.history)
  }

  predicate BatchInv(db: Db) {
    EvidenceOk(db) && MembershipOk(db.items) && BatchesOk(db.batches, db.items) && LineageOk(db.batches, db.items)
  }

  predicate ExpiryInv(db: Db) {
    ExpiryEvidenceOk(db) && ScheduleOk(db.expiryItems) && AccountsOk(db.expiryItems) && RunsOk(db.runs, db.expiryItems)
  }

  predicate Inv(db: Db) {
    CardsInv(db) && BatchInv(db) && ExpiryInv(db)
  }

  lemma {:induction false} EmptyInv()
    ensures Inv(EMPTY_DB)
  {
    assert Heads(EMPTY_DB.cards) == map[];
  }

  // ----- steps that leave an operation's evidence alone -----

  predicate SameEvidence(db: Db, db': Db, operation: Id) {
    operation in db.operations ==>
      operation in db'.operations && db'.operations[operation] == db.operations[operation] &&
      RowsFor(db'.history, operation) == RowsFor(db.history, operation)
  }

  predicate OpenStatus(s: BatchStatus) {
    s != Succeeded && s != BatchStatus.Failed
  }

  predicate BatchesKeepStanding(db: Db, db': Db) {
    forall b :: b in db.batches ==>
      b in db'.batches && db'.batches[b].target == db.batches[b].target &&
      (db'.batches[b].status == db.batches[b].status ||
       (OpenStatus(db'.batches[b].status) && OpenStatus(db.batches[b].status)))
  }

  lemma {:induction false} EvidenceFrame(db: Db, db': Db)
    requires EvidenceOk(db)
    requires db'.items == db.items && db.cards.Keys <= db'.cards.Keys
    requires BatchesKeepStanding(db, db')
    requires forall i :: i in db.items ==> SameEvidence(db, db', db.items[i].operation)
    ensures EvidenceOk(db')
  {
    forall i | i in db'.items ensures ItemOk(db', i) {
      assert ItemOk(db, i);
      assert SameEvidence(db, db', db.items[i].operation);
    }
  }

  lemma {:induction false} ExpiryFrame(db: Db, db': Db)
    requires ExpiryEvidenceOk(db)
    requires db'.expiryItems == db.expiryItems && db.cards.Keys <= db'.cards.Keys && db.runs.Keys <= db'.runs.Keys
    requires forall i :: i in db.expiryItems ==> SameEvidence(db, db', db.expiryItems[i].operation)
    ensures ExpiryEvidenceOk(db')
  {
    forall i | i in db'.expiryItems ensures ExpiryItemOk(db', i) {
      assert ExpiryItemOk(db, i);
      assert SameEvidence(db, db', db.expiryItems[i].operation);
    }
  }

  // An operation no item and no expiry item uses.
  predicate Unused(db: Db, operation: Id) {
    (forall i :: i in db.items ==> db.items[i].operation != operation) &&
    (forall i :: i in db.expiryItems ==> db.expiryItems[i].operation != operation)
  }

  lemma {:induction false} FreshIsUnused(db: Db, operation: Id)
    requires EvidenceOk(db) && ExpiryEvidenceOk(db) && operation !in db.operations
    ensures Unused(db, operation)
  {
    forall i | i in db.items ensures db.items[i].operation != operation { assert ItemOk(db, i); }
    forall i | i in db.expiryItems ensures db.expiryItems[i].operation != operation { assert ExpiryItemOk(db, i); }
  }

  // Card writers touch the cards, one operation no item uses, and append a row for it.
  ghost predicate CardStep(db: Db, db': Db, operation: Id) {
    db' == db.(cards := db'.cards, operations := db'.operations, history := db'.history) &&
    db.cards.Keys <= db'.cards.Keys &&
    (forall o :: o in db.operations && o != operation ==>
       o in db'.operations && db'.operations[o] == db.operations[o]) &&
    (db'.history == db.history ||
     exists r: HistoryRow :: r.operation == operation && db'.history == db.history + [r])
  }

  lemma {:induction false} CardStepKeepsOthers(db: Db, db': Db, operation: Id)
    requires BatchInv(db) && ExpiryInv(db) && Unused(db, operation) && CardStep(db, db', operation)
    ensures BatchInv(db') && ExpiryInv(db') && Unused(db', operation)
  {
    forall o | o != operation ensures SameEvidence(db, db', o) {
      if db'.history != db.history {
        var r: HistoryRow :| r.operation == operation && db'.history == db.history + [r];
        RowsForAppend(db.history, r, o);
      }
    }
    EvidenceFrame(db, db');
    ExpiryFrame(db, db');
  }

  predicate MayPrecede(db: Db, predecessor: Option<Id>) {
    predecessor.Some? ==>
      predecessor.value in db.cards && Underway(db.cards[predecessor.value].status) &&
      !HasIssuedReplacement(db, predecessor.value)
  }

  lemma {:induction false} InsertCardKeepsCards(db: Db, card: Id, operation: Id, action: Action,
        predecessor: Option<Id>)
    requires CardsInv(db) && MayPrecede(db, predecessor)
    ensures var t := InsertCard(db, card, operation, action, predecessor); t.Commit? ==> CardsInv(t.db)
  {
    hide LedgerOk, ForestOk, Underway;
    var t := InsertCard(db, card, operation, action, predecessor);
    if t.Commit? {
      InsertCardKeepsLedger(db, card, operation, action, predecessor);
      forall c | c in db.cards && predecessor.Some? && db.cards[c].predecessor == predecessor
        ensures db.cards[c].status != Issued
      {
        assert !IssuedReplacement(db, predecessor.value, c);
      }
      InsertKeepsForest(db.cards, db.history, card, HistoryRow(card, operation, Pending, Issued), predecessor);
    }
  }

  lemma {:induction false} InsertCardIsCardStep(db: Db, card: Id, operation: Id, action: Action,
        predecessor: Option<Id>)
    ensures var t := InsertCard(db, card, operation, action, predecessor); t.Commit? ==> CardStep(db, t.db, operation)
  {
    var t := InsertCard(db, card, operation, action, predecessor);
    if t.Commit? { assert t.db.history == db.history + [HistoryRow(card, operation, Pending, Issued)]; }
  }

  lemma {:induction false} InsertCardKeepsInv(db: Db, card: Id, operation: Id, action: Action, predecessor: Option<Id>)
    requires Inv(db) && MayPrecede(db, predecessor)
    ensures var t := InsertCard(db, card, operation, action, predecessor); t.Commit? ==> Inv(t.db)
  {
    var t := InsertCard(db, card, operation, action, predecessor);
    if t.Commit? {
      FreshIsUnused(db, operation);
      InsertCardKeepsCards(db, card, operation, action, predecessor);
      InsertCardIsCardStep(db, card, operation, action, predecessor);
      CardStepKeepsOthers(db, t.db, operation);
    }
  }

  lemma {:induction false} IssueKeepsInv(db: Db, referencesValid: bool, card: Id, operation: Id)
    requires Inv(db)
    ensures var t := IssueTx(db, referencesValid, card, operation); t.Commit? ==> Inv(t.db)
  {
    InsertCardKeepsInv(db, card, operation, Issue, None);
  }

  lemma {:induction false} ReplaceKeepsInv(db: Db, card: Id, successor: Id, operation: Id)
    requires Inv(db)
    ensures var t := ReplaceTx(db, card, successor, operation); t.Commit? ==> Inv(t.db)
  {
    if ReplaceTx(db, card, successor, operation).Commit? {
      InsertCardKeepsInv(db, successor, operation, Replace, Some(card));
    }
  }

  function Record(db: Db, operation: Id, o: Operation): Db {
    db.(operations := db.operations[operation := o])
  }

  lemma {:induction false} RecordKeepsInv(db: Db, operation: Id, o: Operation)
    requires Inv(db) && operation !in db.operations
    ensures Inv(Record(db, operation, o)) && Unused(Record(db, operation, o), operation)
  {
    FreshIsUnused(db, operation);
    CardStepKeepsOthers(db, Record(db, operation, o), operation);
  }

  predicate SucceededOn(db: Db, operation: Id, card: Id) {
    operation in db.operations && db.operations[operation].card == card &&
    db.operations[operation].status == OpSucceeded
  }

  lemma {:induction false} PostKeepsCards(db: Db, card: Id, operation: Id, to: Status)
    requires CardsInv(db) && SucceededOn(db, operation, card)
    requires card in db.cards && Legal(db.cards[card].status, to)
    ensures CardsInv(Post(db, card, operation, db.cards[card].status, to))
  {
    PostKeepsLedger(db, card, operation, to);
    ForwardKeepsForest(db.cards, db.history, db.cards[card := Moved(db.cards[card], to)],
      [HistoryRow(card, operation, db.cards[card].status, to)]);
  }

  lemma {:induction false} PostIsCardStep(db: Db, card: Id, operation: Id, to: Status)
    requires card in db.cards
    ensures CardStep(db, Post(db, card, operation, db.cards[card].status, to), operation)
  {
    var d := Post(db, card, operation, db.cards[card].status, to);
    assert d.history == db.history + [HistoryRow(card, operation, db.cards[card].status, to)];
  }

  // Posting a legal move under a succeeded operation of the card.
  lemma {:induction false} PostKeepsInv(db: Db, card: Id, operation: Id, to: Status)
    requires Inv(db) && Unused(db, operation) && SucceededOn(db, operation, card)
    requires card in db.cards && Legal(db.cards[card].status, to)
    ensures Inv(Post(db, card, operation, db.cards[card].status, to))
  {
    PostKeepsCards(db, card, operation, to);
    PostIsCardStep(db, card, operation, to);
    CardStepKeepsOthers(db, Post(db, card, operation, db.cards[card].status, to), operation);
  }

  lemma {:induction false} ClosePredecessorKeepsInv(db: Db, card: Id, operation: Id)
    requires Inv(db)
    ensures var t := ClosePredecessor(db, card, operation); t.Commit? ==> Inv(t.db)
  {
    var t := ClosePredecessor(db, card, operation);
    if t.Commit? && t.db != db {
      var p := db.cards[card].predecessor.value;
      RecordKeepsInv(db, operation, Operation(p, Close, OpSucceeded));
      PostKeepsInv(Record(db, operation, Operation(p, Close, OpSucceeded)), p, operation, Closed);
    }
  }

  lemma {:induction false} CommandKeepsInv(db: Db, card: Id, action: Action, operation: Id, predecessorOperation: Id)
    requires Inv(db)
    ensures var t := CommandTx(db, card, action, operation, predecessorOperation); t.Commit? ==> Inv(t.db)
  {
    var t := CommandTx(db, card, action, operation, predecessorOperation);
    if t.Commit? {
      var was := db.cards[card].status;
      var v := Transition(was, action);
      var recorded := Record(db, operation, Operation(card, action, OpSucceeded));
      RecordKeepsInv(db, operation, Operation(card, action, OpSucceeded));
      if !v.ignored {
        TransitionFollowsTheGraph(was, action);
        PostKeepsInv(recorded, card, operation, v.target.value);
        var moved := Post(recorded, card, operation, was, v.target.value);
        if action == Activate { ClosePredecessorKeepsInv(moved, card, predecessorOperation); }
      }
    }
  }

  lemma {:induction false} SetExpiryKeepsInv(db: Db, card: Id, expiresAt: Option<Time>)
    requires Inv(db)
    ensures var t := SetExpiryTx(db, card, expiresAt); t.Commit? ==> Inv(t.db)
  {
    var t := SetExpiryTx(db, card, expiresAt);
    if t.Commit? { RestampKeepsInv(db, card, expiresAt); }
  }

  lemma {:induction false} RestampKeepsInv(db: Db, card: Id, expiresAt: Option<Time>)
    requires Inv(db) && card in db.cards
    ensures Inv(db.(cards := db.cards[card := db.cards[card].(expiresAt := expiresAt)]))
  {
    var d := db.(cards := db.cards[card := db.cards[card].(expiresAt := expiresAt)]);
    SameHeads(db.cards, d.cards, db.history);
    ForwardKeepsForest(db.cards, db.history, d.cards, []);
    assert db.history + [] == db.history;
    EvidenceFrame(db, d);
    ExpiryFrame(db, d);
  }
}
