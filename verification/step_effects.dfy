// What a committed step did: the values the invariants leave open.
module StepEffects {
  import opened Wrappers
  import opened RowOrder
  import opened Lifecycle
  import opened Tables
  import opened BatchTransactions
  import opened ExpiryTransactions
  import opened Evidence
  import opened BatchRefinement
  import opened ShardInvariant
  import opened Executions
  import opened Fencing
  import opened RunGuarantees

  // A claim takes the due batch with the earliest (next_attempt_at, id), and only that row moves.
  lemma {:induction false} ClaimTakesTheEarliestDue(db: Db, owner: Owner, duration: nat, skipped: set<Id>, now1: Time,
        now2: Time)
    ensures var t := ClaimBatchTx(db, owner, duration, skipped, now1, now2);
      t.Commit? && (t.reply == NoWork || t.reply.BatchWork?) &&
      (t.reply == NoWork ==> t.db == db) &&
      (t.reply == NoWork ==>
        forall b :: b in db.batches && db.batches[b].status == Queued && b !in skipped ==>
          db.batches[b].nextAttemptAt > now1)
    ensures var t := ClaimBatchTx(db, owner, duration, skipped, now1, now2);
      t.reply.BatchWork? ==> (
        var token := t.reply.batchToken; var b := token.batch;
        b in db.batches && b !in skipped && db.batches[b].status == Queued && db.batches[b].nextAttemptAt <= now1 &&
        (forall c :: c in db.batches && c != b && c !in skipped && db.batches[c].status == Queued ==>
          db.batches[b].nextAttemptAt < db.batches[c].nextAttemptAt ||
          (db.batches[b].nextAttemptAt == db.batches[c].nextAttemptAt && b < c)) &&
        var row := db.batches[b];
        t.db == db.(batches := db.batches[b := row.(status := Processing, lease := Some(Lease(owner, now2 + duration)),
          leaseVersion := row.leaseVersion + 1, attemptCount := row.attemptCount + 1)]) &&
        token == BatchToken(b, owner, row.target, row.reason, row.requestedBy, row.itemCount, row.attemptCount + 1,
          row.leaseVersion + 1))
  {
    var due := DueBatches(db, skipped, now1);
    if due.Keys != {} {
      var b := Least(due);
      assert First(due, b);
      forall c | c in db.batches && c != b && c !in skipped && db.batches[c].status == Queued
        ensures db.batches[b].nextAttemptAt < db.batches[c].nextAttemptAt ||
          (db.batches[b].nextAttemptAt == db.batches[c].nextAttemptAt && b < c)
      {
        if c in due { assert Before(due, b, c); }
      }
    } else {
      forall b | b in db.batches && db.batches[b].status == Queued && b !in skipped
        ensures db.batches[b].nextAttemptAt > now1
      {
        assert b !in due.Keys;
      }
    }
  }

  // An applied batch leaves every one of its cards at the target, moved at most once.
  lemma {:induction false} AppliedCardsReachTheTarget(steps: seq<Step>, k: nat, card: Id)
    requires k < |steps| && CommitsAt(steps, k) && steps[k].call.ApplyBatch?
    requires card in CardsOfBatch(At(steps, k).db.items, steps[k].call.batchToken.batch)
    ensures var token := steps[k].call.batchToken; var d, d' := At(steps, k).db, At(steps, k + 1).db;
      card in d.cards && card in d'.cards && d'.cards[card].status == token.target &&
      d'.cards[card].version == d.cards[card].version + (if d.cards[card].status == token.target then 0 else 1) &&
      token.batch in d'.batches && d'.batches[token.batch].status == Succeeded
  {
    hide Run, ApplyBatchTx, AtomicApplyTx, CardsInv, ExpiryInv, EvidenceOk, BatchesOk, MembershipOk;
    CommittedStep(steps, k);
    var db := InvOf(steps[..k]);
    var token, now := steps[k].call.batchToken, At(steps, k).clock + steps[k].wait1;
    ApplyBatchIsAtomic(db, token, now, now + steps[k].wait2);
    MemberIsACard(db, token.batch, card);
    AtomicMove(db, token, now, now + steps[k].wait2, card);
  }

  // Activating a replacement by batch retires nobody: its predecessor is closed or expired afterwards
  // exactly when it was before. Only the command path closes it.
  lemma {:induction false} BatchActivationRetiresNobody(steps: seq<Step>, k: nat, card: Id)
    requires k < |steps| && CommitsAt(steps, k)
    requires steps[k].call.ApplyBatch? && steps[k].call.batchToken.target == Active
    requires card in CardsOfBatch(At(steps, k).db.items, steps[k].call.batchToken.batch)
    requires card in At(steps, k).db.cards && At(steps, k).db.cards[card].predecessor.Some?
    ensures var p := At(steps, k).db.cards[card].predecessor.value; var d, d' := At(steps, k).db, At(steps, k + 1).db;
      card in d'.cards && d'.cards[card].status == Active && p in d.cards && p in d'.cards &&
      (Final(d'.cards[p].status) <==> Final(d.cards[p].status))
  {
    hide Run, CommitsAt;
    PredecessorsInEveryRun(steps[..k], card, card);
    AppliedCardsReachTheTarget(steps, k, card);
    var p := At(steps, k).db.cards[card].predecessor.value;
    if p in CardsOfBatch(At(steps, k).db.items, steps[k].call.batchToken.batch) {
      AppliedCardsReachTheTarget(steps, k, p);
      if Final(At(steps, k).db.cards[p].status) { FinalCardsNeverMove(steps, k, k + 1, p); }
    } else {
      BatchesMoveOnlyTheirCards(steps, k, p);
    }
  }

  lemma {:induction false} AtomicMove(db: Db, token: BatchToken, now1: Time, now2: Time, card: Id)
    requires card in db.cards && card in CardsOfBatch(db.items, token.batch)
    ensures var t := AtomicApplyTx(db, token, now1, now2);
      t.Commit? ==> (
        card in t.db.cards && t.db.cards[card].status == token.target &&
        t.db.cards[card].version == db.cards[card].version + (if db.cards[card].status == token.target then 0 else 1) &&
        token.batch in t.db.batches && t.db.batches[token.batch].status == Succeeded)
  {
    hide CardsOfBatch, SettleItems, SucceedOperations, Moves, LockedRows, EveryMoveLegal;
  }

  lemma {:induction false} MemberIsACard(db: Db, batch: Id, card: Id)
    requires EvidenceOk(db) && card in CardsOfBatch(db.items, batch)
    ensures card in db.cards
  {
    var i :| i in db.items && db.items[i].batch == batch && db.items[i].card == card;
    assert ItemOk(db, i);
  }

  // A failed batch tells which of its cards were at the target anyway; the cards do not move.
  lemma {:induction false} FailureReportsTheCards(db: Db, token: BatchToken, code: Code, now1: Time, now2: Time, i: Id)
    requires EvidenceOk(db) && i in db.items && db.items[i].batch == token.batch
    ensures var t := FailBatchTx(db, token, code, now1, now2);
      t.Commit? ==> (
        var item := t.db.items[i];
        t.db.cards == db.cards && t.db.history == db.history &&
        (item.outcome == OutcomeIgnored <==> db.cards[item.card].status == token.target) &&
        (item.outcome == OutcomeNotApplied <==> db.cards[item.card].status != token.target) &&
        (item.outcome == OutcomeNotApplied ==>
          item.failureCode == Some(if code.Unlisted? then DependencyUnavailable else code)))
  {
    assert ItemOk(db, i);
  }

  // Expiring a card: it ends expired, with one version more unless it already was.
  lemma {:induction false} ExpiryEndsExpired(db: Db, token: ExpiryToken, now1: Time, now2: Time)
    ensures var t := ApplyExpiryItemTx(db, token, now1, now2);
      t.Commit? ==> (
        var c, c' := db.cards[token.card], t.db.cards[token.card];
        c'.status == Expired && c'.version == c.version + (if c.status == Expired then 0 else 1) &&
        c'.predecessor == c.predecessor &&
        (c.expiresAt.Some? ==> c'.expiresAt == c.expiresAt) && (c.status != Expired ==> c'.expiresAt.Some?) &&
        t.db.expiryItems[token.item].status == (if c.status == Expired then ExpSkipped else ExpExpired) &&
        t.db.cards.Keys == db.cards.Keys &&
        forall x :: x in db.cards && x != token.card ==> t.db.cards[x] == db.cards[x])
  {
    hide CompletedRun, HasUnresolved, SucceedOperation;
  }
}
