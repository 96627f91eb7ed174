// The synchronous card workflows of internal/card/service.go over the statements of
// internal/repository/shard/reader.go, each as one transaction body.
module CardTransactions {
  import opened Wrappers
  import opened RowOrder
  import opened Lifecycle
  import opened Tables

  // Every status change posts the same pair: the card moves and bumps its version, and a history
  // row records where it came from.
  function Moved(card: Card, to: Status): Card {
    card.(status := to, version := card.version + 1)
  }

  function Post(db: Db, card: Id, operation: Id, previous: Status, to: Status): Db {
    db.(cards := if card in db.cards then db.cards[card := Moved(db.cards[card], to)] else db.cards,
        history := db.history + [HistoryRow(card, operation, previous, to)])
  }

  function InsertCard(db: Db, card: Id, operation: Id, action: Action, predecessor: Option<Id>): Tx {
    if card in db.cards || operation in db.operations then Rollback(UniqueViolation)
    else Commit(db.(
      cards := db.cards[card := Card(Issued, 1, predecessor, None)],
      operations := db.operations[operation := Operation(card, action, OpSucceeded)],
      history := db.history + [HistoryRow(card, operation, Pending, Issued)]), Done)
  }

  function IssueTx(db: Db, referencesValid: bool, card: Id, operation: Id): Tx {
    if !referencesValid then Rollback(InvalidReference)
    else InsertCard(db, card, operation, Issue, None)
  }

  predicate IssuedReplacement(db: Db, predecessor: Id, card: Id) {
    card in db.cards && db.cards[card].predecessor == Some(predecessor) && db.cards[card].status == Issued
  }

  predicate HasIssuedReplacement(db: Db, predecessor: Id) {
    exists c :: c in db.cards && IssuedReplacement(db, predecessor, c)
  }

  function ReplaceTx(db: Db, card: Id, successor: Id, operation: Id): Tx {
    if card !in db.cards then Rollback(NotFound)
    else if db.cards[card].status != Active && db.cards[card].status != Suspended then Rollback(InvalidTransition)
    else if HasIssuedReplacement(db, card) then Rollback(Error.ReplacementPending)
    else InsertCard(db, successor, operation, Replace, Some(card))
  }

  // closePredecessorOnActivation
  function ClosePredecessor(db: Db, card: Id, operation: Id): Tx {
    if card !in db.cards || db.cards[card].predecessor.None? || db.cards[card].predecessor.value !in db.cards
    then Commit(db, Done)
    else
      var p := db.cards[card].predecessor.value;
      var was := db.cards[p].status;
      if was != Active && was != Suspended then Commit(db, Done)
      else if operation in db.operations then Rollback(UniqueViolation)
      else Commit(Post(db.(operations := db.operations[operation := Operation(p, Close, OpSucceeded)]),
                       p, operation, was, Closed), Done)
  }

  // CardCommandWorkflow with ApplyCardCommand. Replace is the separate branch above.
  function CommandTx(db: Db, card: Id, action: Action, operation: Id, predecessorOperation: Id): Tx {
    if card !in db.cards then Rollback(NotFound)
    else
      var was := db.cards[card].status;
      var v := Transition(was, action);
      if !v.valid || v.target.None? then Rollback(InvalidTransition)
      else if operation in db.operations then Rollback(UniqueViolation)
      else
        var recorded := db.(operations := db.operations[operation := Operation(card, action, OpSucceeded)]);
        if v.ignored then Commit(recorded, Done)
        else if action == Expire then Rollback(UnsupportedAction)
        else
          var moved := Post(recorded, card, operation, was, v.target.value);
          if action == Activate then ClosePredecessor(moved, card, predecessorOperation) else Commit(moved, Done)
  }

  // Card expiry dates are set outside this repository's code paths; a card may get one at any time.
  function SetExpiryTx(db: Db, card: Id, expiresAt: Option<Time>): Tx {
    if card !in db.cards then Rollback(NotFound)
    else Commit(db.(cards := db.cards[card := db.cards[card].(expiresAt := expiresAt)]), Done)
  }
}
