// Runs that show what the protocol does not bound: written out step by step from the empty shard.
module LongRuns {
  import opened Wrappers
  import opened RowOrder
  import opened Lifecycle
  import opened Tables
  import opened DraftRequest
  import opened BatchTransactions
  import opened BatchSteps
  import opened ExpiryTransactions
  import opened Executions
  import opened Fencing
  import opened RetryBudget
  import opened Evidence
  import opened BatchRefinement
  import opened RetryLineage
  import opened ShardInvariant
  import opened RunGuarantees
  import opened StepEffects

  // ----- one queued batch -----

  const ISSUE := Step(IssueCard(true, 1, 1), 0, 0, Acknowledged)
  const DRAFT := DraftOf(1, 2)
  const EXECUTE := Step(ExecuteBatch(1), 0, 0, Acknowledged)
  const SETUP: seq<Step> := [ISSUE, DRAFT, EXECUTE]

  // A draft that activates one card.
  function DraftOf(card: Id, operation: Id): Step {
    Step(CreateBatch(1, "active", "request", "user", [Canonical(card)], [operation], [1]), 0, 0, Acknowledged)
  }

  // The batch of the setup, some claims later.
  function Row(attempts: nat, version: nat, at: Time, code: Option<Code>): Batch {
    Batch(Active, "request", "user", Queued, 1, 0, 0, None, attempts, at, None, version, code)
  }

  predicate Waiting(w: World, attempts: nat, version: nat, due: Time) {
    w.db.batches.Keys == {1} &&
    var row := w.db.batches[1];
    row == Row(attempts, version, row.nextAttemptAt, row.failureCode) && row.nextAttemptAt <= due
  }

  lemma {:induction false} RequestIsValid(card: Id)
    ensures Normalize("active", "request", [Canonical(card)]) == Some(CanonicalDraft(Active, "request", [card]))
  {
    assert TrimSpace("active") == "active" && TrimSpace("request") == "request";
    assert Ids([Canonical(card)]) == [card];
    assert Sort([card]) == [card];
  }

  predicate Undrafted(db: Db, card: Id, operation: Id) {
    card in db.cards && operation !in db.operations && db.items == map[] && db.batches == map[]
  }

  predicate Drafted(db: Db, cards: map<Id, Card>, card: Id, operation: Id) {
    db.batches == map[1 := Row(0, 0, 0, None).(status := Draft)] && db.cards == cards &&
    db.items == map[1 := BatchItem(1, card, operation, OutcomePending, None, None)]
  }

  lemma {:induction false} DraftCommits(db: Db, card: Id, operation: Id)
    requires Undrafted(db, card, operation)
    ensures var t := Body(db, DraftOf(card, operation).call, 0, 0);
      t.Commit? && Drafted(t.db, db.cards, card, operation)
  {
    RequestIsValid(card);
    var row := NewBatch(Active, "request", "user", 1, None, 0);
    var started := db.(batches := db.batches[1 := row]);
    assert InsertItems(started, 1, Activate, [], [], []) == Commit(started, Done);
    assert [card][..0] == [] && [operation][..0] == [] && [1][..0] == [];
    assert InsertItems(started, 1, Activate, [card], [operation], [1]) ==
      InsertItem(started, 1, Activate, card, operation, 1);
    hide Normalize, InsertItems;
  }

  lemma {:induction false} IssueTurn(w: World)
    requires w == START
    ensures var v := Next(w, ISSUE);
      v.db.cards == map[1 := Card(Issued, 1, None, None)] && v.db.operations.Keys == {1} && v.db.items == map[] &&
      v.db.batches == map[] && v.db.runs == map[] && v.db.expiryItems == map[] && v.clock == 0
  {
  }

  lemma {:induction false} DraftStepTurn(w: World, card: Id, operation: Id)
    requires Undrafted(w.db, card, operation) && w.clock == 0
    ensures var v := Next(w, DraftOf(card, operation)); Drafted(v.db, w.db.cards, card, operation) && v.clock == 0
  {
    hide Body, Drafted, Undrafted;
    DraftCommits(w.db, card, operation);
  }

  lemma {:induction false} ExecuteTurn(w: World)
    requires w.db.batches == map[1 := Row(0, 0, 0, None).(status := Draft)] && w.clock == 0
    ensures var v := Next(w, EXECUTE);
      Waiting(v, 0, 0, 0) && v.clock == 0 && v.db.cards == w.db.cards && v.db.items == w.db.items
  {
  }

  lemma {:induction false} SetupQueuesTheBatch()
    ensures Waiting(Run(SETUP), 0, 0, 0) && Run(SETUP).clock == 0
  {
    hide Next, Body, Waiting, Row;
    RunExtends([], ISSUE);
    RunExtends([ISSUE], DRAFT);
    RunExtends([ISSUE, DRAFT], EXECUTE);
    assert [] + [ISSUE] == [ISSUE] && [ISSUE] + [DRAFT] == [ISSUE, DRAFT] && [ISSUE, DRAFT] + [EXECUTE] == SETUP;
    IssueTurn(Run([]));
    DraftStepTurn(Run([ISSUE]), 1, 2);
    ExecuteTurn(Run([ISSUE, DRAFT]));
  }

  // ----- lost leases -----

  function ClaimStep(owner: Owner, duration: nat, wait: nat): Step {
    Step(ClaimBatch(owner, duration, {}), wait, 0, Acknowledged)
  }

  function RecoverStep(wait: nat): Step {
    Step(RecoverBatches({}), wait, 0, Acknowledged)
  }

  // The executor dies after every claim, and the lease is recovered once it has run out.
  function LossRun(owner: Owner, duration: nat, wait: nat, rounds: nat): seq<Step> {
    if rounds == 0 then SETUP
    else LossRun(owner, duration, wait, rounds - 1) + [ClaimStep(owner, duration, 0)] + [RecoverStep(wait)]
  }

  function TokenAt(owner: Owner, attempts: nat, version: nat): BatchToken {
    BatchToken(1, owner, Active, "request", "user", 1, attempts, version)
  }

  // The batch under the claim of a round.
  predicate UnderClaim(w: World, owner: Owner, attempts: nat, version: nat, until: Time) {
    w.db.batches.Keys == {1} && TokenAt(owner, attempts, version) in w.batchTokens &&
    var row := w.db.batches[1];
    row == Row(attempts, version, row.nextAttemptAt, row.failureCode).(
      status := Processing, lease := Some(Lease(owner, until)), nextAttemptAt := row.nextAttemptAt)
  }

  lemma {:induction false} ClaimRound(w: World, owner: Owner, duration: nat, wait: nat, attempts: nat, version: nat)
    requires Waiting(w, attempts, version, w.clock + wait)
    ensures var v := Next(w, ClaimStep(owner, duration, wait));
      UnderClaim(v, owner, attempts + 1, version + 1, v.clock + duration) && v.clock == w.clock + wait
    ensures Committed(w, ClaimStep(owner, duration, wait))
  {
    var due := DueBatches(w.db, {}, w.clock + wait);
    assert due.Keys == {1};
    assert Least(due) in due;
  }

  lemma {:induction false} RecoverRound(w: World, owner: Owner, duration: nat, wait: nat, attempts: nat, version: nat)
    requires UnderClaim(w, owner, attempts, version, w.clock + duration) && duration <= wait
    ensures var v := Next(w, RecoverStep(wait)); Waiting(v, attempts, version + 1, v.clock)
    ensures Committed(w, RecoverStep(wait)) && 1 in ExpiredLeases(w.db, {}, w.clock + wait)
  {
  }

  lemma {:induction false} LossTurn(before: seq<Step>, owner: Owner, duration: nat, wait: nat, rounds: nat)
    requires duration <= wait && Waiting(Run(before), rounds, 2 * rounds, Run(before).clock)
    ensures var steps := before + [ClaimStep(owner, duration, 0)] + [RecoverStep(wait)];
      Waiting(Run(steps), rounds + 1, 2 * rounds + 2, Run(steps).clock) &&
      Recoveries(steps, 1) == Recoveries(before, 1) + 1
  {
    hide Run, Next, Waiting, UnderClaim, Committed, ExpiredLeases, Recoveries;
    var claimed := before + [ClaimStep(owner, duration, 0)];
    RunExtends(before, ClaimStep(owner, duration, 0));
    ClaimRound(Run(before), owner, duration, 0, rounds, 2 * rounds);
    RunExtends(claimed, RecoverStep(wait));
    RecoverRound(Run(claimed), owner, duration, wait, rounds + 1, 2 * rounds + 1);
    OneMoreRecovery(before, ClaimStep(owner, duration, 0));
    OneMoreRecovery(claimed, RecoverStep(wait));
  }

  lemma {:induction false} LossRunWaits(owner: Owner, duration: nat, wait: nat, rounds: nat)
    requires duration <= wait
    ensures var steps := LossRun(owner, duration, wait, rounds);
      Waiting(Run(steps), rounds, 2 * rounds, Run(steps).clock) && Recoveries(steps, 1) == rounds
  {
    hide Run, Waiting, Recoveries;
    if rounds == 0 {
      SetupQueuesTheBatch();
      NoRecoveriesYet();
      DueByThen(Run(SETUP), 0);
    } else {
      LossRunWaits(owner, duration, wait, rounds - 1);
      LossTurn(LossRun(owner, duration, wait, rounds - 1), owner, duration, wait, rounds - 1);
    }
  }

  lemma {:induction false} OneMoreRecovery(steps: seq<Step>, s: Step)
    ensures Recoveries(steps + [s], 1) == Recoveries(steps, 1) + (
      if Committed(Run(steps), s) && s.call.RecoverBatches? &&
         1 in ExpiredLeases(Run(steps).db, s.call.skipped, Run(steps).clock + s.wait1) then 1 else 0)
  {
    hide Run, Body;
    assert (steps + [s])[..|steps|] == steps;
  }

  lemma {:induction false} NoRecoveriesYet()
    ensures Recoveries(SETUP, 1) == 0
  {
    hide Run, Committed, ExpiredLeases;
    OneMoreRecovery([], ISSUE);
    OneMoreRecovery([ISSUE], DRAFT);
    OneMoreRecovery([ISSUE, DRAFT], EXECUTE);
    assert [] + [ISSUE] == [ISSUE] && [ISSUE] + [DRAFT] == [ISSUE, DRAFT] && [ISSUE, DRAFT] + [EXECUTE] == SETUP;
  }

  // The attempt count has no bound of its own: with any lease duration, a batch whose every lease is
  // lost is claimed again for ever, one attempt for each recovery, and it is still queued.
  lemma {:induction false} LostLeasesAreNotCapped(owner: Owner, duration: nat, wait: nat, rounds: nat)
    requires 0 < duration <= wait
    ensures var steps := LossRun(owner, duration, wait, rounds); var db := Run(steps).db;
      AttemptsOf(db, 1) == rounds == Recoveries(steps, 1) && 1 in db.batches && db.batches[1].status == Queued
    ensures forall max :: BudgetedBy(LossRun(owner, duration, wait, rounds), 1, max)
  {
    hide Run, LossRun, Recoveries;
    LossRunWaits(owner, duration, wait, rounds);
    NobodyRetries(owner, duration, wait, rounds);
  }

  lemma {:induction false} NobodyRetries(owner: Owner, duration: nat, wait: nat, rounds: nat)
    ensures forall k :: 0 <= k < |LossRun(owner, duration, wait, rounds)| ==>
      !LossRun(owner, duration, wait, rounds)[k].call.RetryOrFail?
  {
    if rounds > 0 { NobodyRetries(owner, duration, wait, rounds - 1); }
  }

  // ----- outages of central authorization -----

  // What runBatch does with a claim while the directory cannot be reached.
  function OutageStep(token: BatchToken, max: nat, delay: nat): Step {
    Step(RetryOrFail(token, max, ControlUnavailable, delay), 0, 0, Acknowledged)
  }

  predicate Exhausted(w: World, attempts: nat) {
    1 in w.db.batches &&
    var row := w.db.batches[1];
    row.status == BatchStatus.Failed && row.failureCode == Some(RetryExhausted) && row.attemptCount == attempts
  }

  function OutageRun(owner: Owner, duration: nat, delay: nat, max: nat, rounds: nat): seq<Step> {
    if rounds == 0 then SETUP
    else
      OutageRun(owner, duration, delay, max, rounds - 1) + [ClaimStep(owner, duration, delay)] +
      [OutageStep(TokenAt(owner, rounds, rounds), max, delay)]
  }

  lemma {:induction false} OutageRound(w: World, owner: Owner, duration: nat, delay: nat, max: nat, attempts: nat)
    requires UnderClaim(w, owner, attempts, attempts, w.clock + duration) && duration > 0
    ensures var v := Next(w, OutageStep(TokenAt(owner, attempts, attempts), max, delay));
      v.clock == w.clock &&
      (if attempts < max then Waiting(v, attempts, attempts, v.clock + delay) else Exhausted(v, attempts))
  {
    hide FailedItems, FailedOperations, WithOutcome;
  }

  lemma {:induction false} OutageRunWaits(owner: Owner, duration: nat, delay: nat, max: nat, rounds: nat)
    requires duration > 0 && rounds < max
    ensures var w := Run(OutageRun(owner, duration, delay, max, rounds)); Waiting(w, rounds, rounds, w.clock + delay)
  {
    hide Run, Next, Waiting, UnderClaim;
    if rounds == 0 {
      SetupQueuesTheBatch();
      DueByThen(Run(SETUP), delay);
    } else {
      OutageRunWaits(owner, duration, delay, max, rounds - 1);
      OutageTurn(owner, duration, delay, max, rounds);
    }
  }

  lemma {:induction false} DueByThen(w: World, delay: nat)
    requires Waiting(w, 0, 0, 0)
    ensures Waiting(w, 0, 0, w.clock + delay)
  {
  }

  lemma {:induction false} OutageTurn(owner: Owner, duration: nat, delay: nat, max: nat, rounds: nat)
    requires duration > 0 && 0 < rounds
    requires var w := Run(OutageRun(owner, duration, delay, max, rounds - 1));
      Waiting(w, rounds - 1, rounds - 1, w.clock + delay)
    ensures var v := Run(OutageRun(owner, duration, delay, max, rounds));
      (if rounds < max then Waiting(v, rounds, rounds, v.clock + delay) else Exhausted(v, rounds))
  {
    hide Run, Next, Waiting, UnderClaim, Exhausted;
    var before := OutageRun(owner, duration, delay, max, rounds - 1);
    var claimed := before + [ClaimStep(owner, duration, delay)];
    RunExtends(before, ClaimStep(owner, duration, delay));
    ClaimRound(Run(before), owner, duration, delay, rounds - 1, rounds - 1);
    RunExtends(claimed, OutageStep(TokenAt(owner, rounds, rounds), max, delay));
    OutageRound(Run(claimed), owner, duration, delay, max, rounds);
  }

  predicate OutagesOnly(steps: seq<Step>) {
    forall k :: 0 <= k < |steps| && LeasedBatchCall(steps[k].call) ==>
      steps[k].call.RetryOrFail? && steps[k].call.code == ControlUnavailable
  }

  lemma {:induction false} OnlyOutages(owner: Owner, duration: nat, delay: nat, max: nat, rounds: nat)
    ensures OutagesOnly(OutageRun(owner, duration, delay, max, rounds))
  {
    if rounds > 0 { OnlyOutages(owner, duration, delay, max, rounds - 1); }
  }

  // For every maximum, outages of central authorization alone use up the retry budget: the batch
  // fails as exhausted although no attempt to apply it was ever made.
  lemma {:induction false} OutagesAloneExhaustTheBudget(owner: Owner, duration: nat, delay: nat, max: nat)
    requires duration > 0 && max >= 1
    ensures var steps := OutageRun(owner, duration, delay, max, max);
      OutagesOnly(steps) && Exhausted(Run(steps), max)
  {
    hide Run, OutageRun, OutagesOnly, Waiting;
    OutageRunWaits(owner, duration, delay, max, max - 1);
    OutageTurn(owner, duration, delay, max, max);
    OnlyOutages(owner, duration, delay, max, max);
  }

  // ----- a scheduled expiry -----

  const EXPIRES := Step(SetExpiry(1, Some(0)), 0, 0, Acknowledged)
  const SCHEDULE := Step(EnsureExpiryRun(0, {}, [2], [1]), 0, 0, Acknowledged)

  function ItemClaim(owner: Owner, duration: nat): Step {
    Step(ClaimExpiryItem(owner, duration, {}), 0, 0, Acknowledged)
  }

  lemma {:induction false} ExpiresTurn(w: World)
    requires w.db.cards == map[1 := Card(Issued, 1, None, None)] && w.db.operations.Keys == {1}
    requires w.db.runs == map[] && w.db.expiryItems == map[] && w.clock == 0
    ensures var v := Next(w, EXPIRES);
      v.db.cards == map[1 := Card(Issued, 1, None, Some(0))] && v.db.operations.Keys == {1} &&
      v.db.runs == map[] && v.db.expiryItems == map[] && v.clock == 0
  {
  }

  lemma {:induction false} ScheduleTurn(w: World)
    requires w.db.cards == map[1 := Card(Issued, 1, None, Some(0))] && w.db.operations.Keys == {1}
    requires w.db.runs == map[] && w.db.expiryItems == map[] && w.clock == 0
    ensures var v := Next(w, SCHEDULE); v.db.expiryItems == map[1 := NewExpiryItem(0, 1, 2, 0)] && v.clock == 0
  {
    var begun := OpenRun(w.db, 0);
    assert DueForExpiry(begun, 0, 1);
    assert DueCards(begun, 0, {}).Keys == {1};
    var cards := SelectedCards(begun, 0, {});
    assert 1 in Ordered(DueCards(begun, 0, {}));
    assert cards == [1];
    var ready := ReopenRun(begun, 0);
    assert ScheduleCards(ready, 0, [], [2], [1], 0) == Commit(ready, Done);
    assert [1][..0] == [];
    assert ScheduleCards(ready, 0, [1], [2], [1], 0) == ScheduleCard(ready, 0, 1, 2, 1, 0);
    hide DueCards, SelectedCards, ScheduleCards;
  }

  lemma {:induction false} ItemClaimTurn(w: World, owner: Owner, duration: nat)
    requires w.db.expiryItems == map[1 := NewExpiryItem(0, 1, 2, 0)] && w.clock == 0
    ensures ExpiryToken(1, 0, 1, 2, owner, 1, 0) in Next(w, ItemClaim(owner, duration)).expiryTokens
  {
    var due := DueItems(w.db, {}, 0);
    assert due.Keys == {1};
    assert Least(due) in due;
  }

  // A card with an expiry date is scheduled, and a worker gets to claim it.
  lemma {:induction false} ExpiryIsReached(owner: Owner, duration: nat)
    ensures ExpiryToken(1, 0, 1, 2, owner, 1, 0) in Run([ISSUE, EXPIRES, SCHEDULE, ItemClaim(owner,
      duration)]).expiryTokens
  {
    hide Next, Body;
    RunExtends([], ISSUE);
    RunExtends([ISSUE], EXPIRES);
    RunExtends([ISSUE, EXPIRES], SCHEDULE);
    RunExtends([ISSUE, EXPIRES, SCHEDULE], ItemClaim(owner, duration));
    assert [] + [ISSUE] == [ISSUE] && [ISSUE] + [EXPIRES] == [ISSUE, EXPIRES];
    assert [ISSUE, EXPIRES] + [SCHEDULE] == [ISSUE, EXPIRES, SCHEDULE];
    assert [ISSUE, EXPIRES, SCHEDULE] + [ItemClaim(owner, duration)] ==
      [ISSUE, EXPIRES, SCHEDULE, ItemClaim(owner, duration)];
    IssueTurn(Run([]));
    ExpiresTurn(Run([ISSUE]));
    ScheduleTurn(Run([ISSUE, EXPIRES]));
    ItemClaimTurn(Run([ISSUE, EXPIRES, SCHEDULE]), owner, duration);
  }

  // ----- a replacement activated by batch -----

  const ACTIVATE := Step(CardCommand(1, Activate, 2, 9), 0, 0, Acknowledged)
  const REPLACE := Step(ReplaceCard(1, 2, 3), 0, 0, Acknowledged)
  const REPLACED: map<Id, Card> := map[1 := Card(Active, 2, None, None), 2 := Card(Issued, 1, Some(1), None)]

  function ApplyStep(token: BatchToken): Step {
    Step(ApplyBatch(token), 0, 0, Acknowledged)
  }

  // Issue, activate and replace a card; then draft, execute, claim and apply a batch on the successor.
  function ReplacementSteps(owner: Owner, duration: nat): seq<Step> {
    [ISSUE, ACTIVATE, REPLACE, DraftOf(2, 4), EXECUTE, ClaimStep(owner, duration, 0)]
  }

  lemma {:induction false} ActivateTurn(w: World)
    requires w == Next(START, ISSUE)
    ensures var v := Next(w, ACTIVATE);
      v.db.cards == map[1 := Card(Active, 2, None, None)] && v.db.operations.Keys == {1, 2} &&
      v.db.items == map[] && v.db.batches == map[] && v.clock == 0
  {
    hide Next;
    IssueTurn(START);
    CommandTurn(w);
  }

  lemma {:induction false} CommandTurn(w: World)
    requires w.db.cards == map[1 := Card(Issued, 1, None, None)] && w.db.operations.Keys == {1}
    requires w.db.items == map[] && w.db.batches == map[] && w.clock == 0
    ensures var v := Next(w, ACTIVATE);
      v.db.cards == map[1 := Card(Active, 2, None, None)] && v.db.operations.Keys == {1, 2} &&
      v.db.items == map[] && v.db.batches == map[] && v.clock == 0
  {
    assert Transition(Issued, Activate) == Verdict(Some(Active), true, false);
  }

  lemma {:induction false} ReplaceTurn(w: World)
    requires w.db.cards == map[1 := Card(Active, 2, None, None)] && w.db.operations.Keys == {1, 2}
    requires w.db.items == map[] && w.db.batches == map[] && w.clock == 0
    ensures var v := Next(w, REPLACE); v.db.cards == REPLACED && Undrafted(v.db, 2, 4) && v.clock == 0
  {
  }

  lemma {:induction false} ClaimKeepsCards(w: World, owner: Owner, duration: nat)
    ensures var v := Next(w, ClaimStep(owner, duration, 0)); v.db.cards == w.db.cards && v.db.items == w.db.items
  {
  }

  lemma {:induction false} ReplacementIsClaimed(owner: Owner, duration: nat)
    ensures var w := Run(ReplacementSteps(owner, duration));
      UnderClaim(w, owner, 1, 1, w.clock + duration) && w.db.cards == REPLACED &&
      w.db.items == map[1 := BatchItem(1, 2, 4, OutcomePending, None, None)]
  {
    hide Next, Body, Waiting, UnderClaim, Undrafted, Row;
    var s3, s4 := [ISSUE, ACTIVATE, REPLACE], [ISSUE, ACTIVATE, REPLACE, DraftOf(2, 4)];
    var s5 := s4 + [EXECUTE];
    RunExtends([], ISSUE);
    RunExtends([ISSUE], ACTIVATE);
    RunExtends([ISSUE, ACTIVATE], REPLACE);
    RunExtends(s3, DraftOf(2, 4));
    RunExtends(s4, EXECUTE);
    RunExtends(s5, ClaimStep(owner, duration, 0));
    assert [] + [ISSUE] == [ISSUE] && [ISSUE] + [ACTIVATE] == [ISSUE, ACTIVATE];
    assert [ISSUE, ACTIVATE] + [REPLACE] == s3 && s3 + [DraftOf(2, 4)] == s4;
    assert s5 + [ClaimStep(owner, duration, 0)] == ReplacementSteps(owner, duration);
    ActivateTurn(Run([ISSUE]));
    ReplaceTurn(Run([ISSUE, ACTIVATE]));
    DraftStepTurn(Run(s3), 2, 4);
    ExecuteTurn(Run(s4));
    ClaimRound(Run(s5), owner, duration, 0, 0, 0);
    ClaimKeepsCards(Run(s5), owner, duration);
  }

  lemma {:induction false} ApplyCommits(w: World, owner: Owner, duration: nat)
    requires Inv(w.db) && UnderClaim(w, owner, 1, 1, w.clock + duration) && duration > 0
    requires w.db.cards == REPLACED && w.db.items == map[1 := BatchItem(1, 2, 4, OutcomePending, None, None)]
    ensures Committed(w, ApplyStep(TokenAt(owner, 1, 1)))
  {
    hide ApplyBatchTx, CardsInv, ExpiryInv, EvidenceOk, MembershipOk, BatchesOk, LineageOk, AppliedAtOnce, WithOutcome;
    ApplyBatchIsAtomic(w.db, TokenAt(owner, 1, 1), w.clock, w.clock);
  }

  // The retirement that activation by command brings does not happen by batch: after this run the
  // replacement and its predecessor are both active.
  lemma {:induction false} BatchActivationLeavesThePredecessor(owner: Owner, duration: nat)
    requires duration > 0
    ensures var w := Run(ReplacementSteps(owner, duration) + [ApplyStep(TokenAt(owner, 1, 1))]);
      1 in w.db.cards && w.db.cards[1].status == Active &&
      2 in w.db.cards && w.db.cards[2].status == Active && w.db.cards[2].predecessor == Some(1)
  {
    hide Run, Next, Inv, UnderClaim, Committed, CardsOfBatch;
    var before := ReplacementSteps(owner, duration);
    var s := ApplyStep(TokenAt(owner, 1, 1));
    var steps := before + [s];
    ReplacementIsClaimed(owner, duration);
    EveryRunKeepsInv(before);
    ApplyCommits(Run(before), owner, duration);
    assert steps[..|before|] == before && steps[..|before|+1] == steps;
    MembersOf(Run(before).db.items);
    AppliedCardsReachTheTarget(steps, |before|, 2);
    BatchesMoveOnlyTheirCards(steps, |before|, 1);
    LinksStay(steps, |before|, 2);
  }

  lemma {:induction false} MembersOf(items: map<Id, BatchItem>)
    requires items == map[1 := BatchItem(1, 2, 4, OutcomePending, None, None)]
    ensures 2 in CardsOfBatch(items, 1) && 1 !in CardsOfBatch(items, 1)
  {
    assert items[1].card == 2;
  }

  // Applying a batch never touches a predecessor link.
  lemma {:induction false} LinksStay(steps: seq<Step>, k: nat, card: Id)
    requires k < |steps| && CommitsAt(steps, k) && steps[k].call.ApplyBatch? && card in At(steps, k).db.cards
    ensures card in At(steps, k + 1).db.cards
    ensures At(steps, k + 1).db.cards[card].predecessor == At(steps, k).db.cards[card].predecessor
  {
    hide Run, ApplyBatchTx, CardsInv, ExpiryInv, EvidenceOk, MembershipOk, BatchesOk, LineageOk;
    hide WithOutcome, SettleItems;
    CommittedStep(steps, k);
    EveryRunKeepsInv(steps[..k]);
    var now := At(steps, k).clock + steps[k].wait1;
    ApplyBatchIsAtomic(At(steps, k).db, steps[k].call.batchToken, now, now + steps[k].wait2);
  }
}
