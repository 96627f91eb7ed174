// What the synchronous card calls answer and leave behind, written out from their arguments and the
// tables before.
module CardEffects {
  import opened Wrappers
  import opened RowOrder
  import opened Lifecycle
  import opened Tables
  import opened CardTransactions
  import opened Executions
  import opened Fencing
  import opened RunGuarantees

  // ----- commands -----

  // Where each action may be given: along its edges, or where it already leads.
  predicate Permits(was: Status, action: Action) {
    match action
    case Activate => was in {Issued, Active}
    case Suspend => was in {Active, Suspended}
    case Resume => was in {Suspended, Active}
    case Close => was in {Issued, Active, Suspended, Closed}
    case Expire => was in {Pending, Issued, Active, Suspended, Expired}
    case _ => false
  }

  // The activation of a replacement whose predecessor is still in use.
  predicate Retires(cards: map<Id, Card>, card: Id, action: Action) {
    action == Activate && card in cards && cards[card].status == Issued && cards[card].predecessor.Some? &&
    cards[card].predecessor.value in cards &&
    cards[cards[card].predecessor.value].status in {Active, Suspended}
  }

  predicate Accepts(db: Db, card: Id, action: Action, operation: Id, predecessorOperation: Id) {
    card in db.cards && Permits(db.cards[card].status, action) && operation !in db.operations &&
    (action == Expire ==> db.cards[card].status == Expired) &&
    (Retires(db.cards, card, action) ==>
      predecessorOperation !in db.operations && predecessorOperation != operation)
  }

  predicate NotItsOwnPredecessor(cards: map<Id, Card>, card: Id) {
    card in cards ==> cards[card].predecessor != Some(card)
  }

  // The first thing that stands in the way, when something does.
  function Objection(db: Db, card: Id, action: Action, operation: Id): Error {
    if card !in db.cards then NotFound
    else if !Permits(db.cards[card].status, action) then InvalidTransition
    else if operation !in db.operations && action == Expire && db.cards[card].status != Expired
    then UnsupportedAction
    else UniqueViolation
  }

  // The status an accepted action leaves its card at.
  predicate LeftAt(action: Action, status: Status) {
    (action == Activate || action == Resume ==> status == Active) &&
    (action == Suspend ==> status == Suspended) &&
    (action == Close ==> status == Closed) &&
    (action == Expire ==> status == Expired) &&
    action != Issue && action != Replace
  }

  // The card is at the status the action names, with one version more and one history row if that is
  // a move; the operation is recorded; nothing else changes but a predecessor that is retired.
  predicate CommandDone(db: Db, d': Db, card: Id, action: Action, operation: Id, predecessorOperation: Id) {
    card in db.cards && card in d'.cards && LeftAt(action, d'.cards[card].status) &&
    var c, to := db.cards[card], d'.cards[card].status;
    var recorded := db.operations[operation := Operation(card, action, OpSucceeded)];
    var moved := db.cards[card := Card(to, c.version + 1, c.predecessor, c.expiresAt)];
    var history := db.history + [HistoryRow(card, operation, c.status, to)];
    if to == c.status then d' == db.(operations := recorded)
    else if !Retires(db.cards, card, action) then d' == db.(cards := moved, operations := recorded, history := history)
    else
      var p := c.predecessor.value; var was := db.cards[p];
      d' == db.(cards := moved[p := Card(Closed, was.version + 1, was.predecessor, was.expiresAt)],
        operations := recorded[predecessorOperation := Operation(p, Close, OpSucceeded)],
        history := history + [HistoryRow(p, predecessorOperation, was.status, Closed)])
  }

  lemma {:induction false} CommandIsAccepted(db: Db, card: Id, action: Action, operation: Id, predecessorOperation: Id)
    requires NotItsOwnPredecessor(db.cards, card)
    ensures var t := CommandTx(db, card, action, operation, predecessorOperation);
      if Accepts(db, card, action, operation, predecessorOperation) then t.Commit? && t.reply == Done
      else t == Rollback(Objection(db, card, action, operation))
  {
  }

  lemma {:induction false} CommandEffect(db: Db, card: Id, action: Action, operation: Id, predecessorOperation: Id)
    requires NotItsOwnPredecessor(db.cards, card)
    ensures var t := CommandTx(db, card, action, operation, predecessorOperation);
      t.Commit? ==> CommandDone(db, t.db, card, action, operation, predecessorOperation)
  {
  }

  // No card is its own predecessor, in any run.
  lemma {:induction false} PredecessorsDiffer(steps: seq<Step>, card: Id)
    ensures NotItsOwnPredecessor(Run(steps).db.cards, card)
  {
    hide Run;
    var cards := Run(steps).db.cards;
    if card in cards && cards[card].predecessor == Some(card) {
      NoCardIsItsOwnAncestor(steps, [card, card]);
      assert false;
    }
  }

  // A command commits exactly when its card exists, the action may be given there and the operation
  // ids are new; otherwise the answer names the first of these that fails.
  lemma {:induction false} CommandsAreAnswered(steps: seq<Step>, k: nat)
    requires k < |steps| && steps[k].call.CardCommand?
    ensures var db, s, c := At(steps, k).db, steps[k], steps[k].call;
      var accepted := Accepts(db, c.card, c.action, c.operation, c.predecessorOperation);
      (CommitsAt(steps, k) <==> s.fate != Aborted && accepted) &&
      (s.fate == Acknowledged && accepted ==> Answer(At(steps, k), s) == Done) &&
      (s.fate != Aborted && !accepted ==>
        Answer(At(steps, k), s) == Refused(Objection(db, c.card, c.action, c.operation)))
  {
    hide Run, CommandTx, Accepts, Objection;
    var db, c := At(steps, k).db, steps[k].call;
    PredecessorsDiffer(steps[..k], c.card);
    CommandIsAccepted(db, c.card, c.action, c.operation, c.predecessorOperation);
  }

  // What a committed command did, in every run.
  lemma {:induction false} CommandsDoWhatTheySay(steps: seq<Step>, k: nat)
    requires k < |steps| && CommitsAt(steps, k) && steps[k].call.CardCommand?
    ensures var c := steps[k].call;
      CommandDone(At(steps, k).db, At(steps, k + 1).db, c.card, c.action, c.operation, c.predecessorOperation)
  {
    hide Run, CommandTx, CommandDone;
    var db, c := At(steps, k).db, steps[k].call;
    PredecessorsDiffer(steps[..k], c.card);
    CommittedStep(steps, k);
    CommandEffect(db, c.card, c.action, c.operation, c.predecessorOperation);
  }

  // ----- issuing and replacing -----

  predicate Inserted(db: Db, d': Db, card: Id, operation: Id, action: Action, predecessor: Option<Id>) {
    card !in db.cards && operation !in db.operations &&
    d' == db.(cards := db.cards[card := Card(Issued, 1, predecessor, None)],
      operations := db.operations[operation := Operation(card, action, OpSucceeded)],
      history := db.history + [HistoryRow(card, operation, Pending, Issued)])
  }

  // Issuing commits exactly when the references are valid and both ids are new.
  lemma {:induction false} IssuingInsertsTheCard(db: Db, valid: bool, card: Id, operation: Id)
    ensures var t := IssueTx(db, valid, card, operation);
      (t.Commit? <==> valid && card !in db.cards && operation !in db.operations) &&
      (t.Commit? ==> t.reply == Done && Inserted(db, t.db, card, operation, Issue, None)) &&
      (t.Rollback? ==> t.error == (if valid then UniqueViolation else InvalidReference))
  {
  }

  predicate MayReplace(cards: map<Id, Card>, card: Id) {
    card in cards && cards[card].status in {Active, Suspended} &&
    forall c :: c in cards && cards[c].predecessor == Some(card) ==> cards[c].status != Issued
  }

  function ReplaceObjection(cards: map<Id, Card>, card: Id): Error {
    if card !in cards then NotFound
    else if cards[card].status !in {Active, Suspended} then InvalidTransition
    else if MayReplace(cards, card) then UniqueViolation
    else Error.ReplacementPending
  }

  // Replacing commits exactly when the card is active or suspended, has no issued successor and both
  // ids are new. The predecessor stays as it is.
  lemma {:induction false} ReplacingInsertsASuccessor(db: Db, card: Id, successor: Id, operation: Id)
    ensures var t := ReplaceTx(db, card, successor, operation);
      (t.Commit? <==> MayReplace(db.cards, card) && successor !in db.cards && operation !in db.operations) &&
      (t.Commit? ==> t.reply == Done && Inserted(db, t.db, successor, operation, Replace, Some(card))) &&
      (t.Rollback? ==> t.error == ReplaceObjection(db.cards, card))
  {
    if HasIssuedReplacement(db, card) {
      var c :| c in db.cards && IssuedReplacement(db, card, c);
    } else {
      forall c | c in db.cards && db.cards[c].predecessor == Some(card) ensures db.cards[c].status != Issued {
        assert !IssuedReplacement(db, card, c);
      }
    }
  }
}
