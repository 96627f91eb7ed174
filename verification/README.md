# Card-issuer shard: a verified model

This Dafny project models the card-status engine of the card-issuer service and proves what its
protocols keep, over every run. The centre is one bank's shard: the tables of cards, operations,
history rows, status batches with their items, expiry runs with their items, and the three kinds of
writer that share the cards. Synchronous commands act on one card. Batches are drafted, queued,
claimed under a lease by some executor, applied or failed, and retried. Scheduled expiry works card by
card with bounded automatic retries. Workers may die, go stale, present a claim late or twice, or lose
the acknowledgement of a commit that happened.

How the pieces fit:

- `tables.dfy` holds the tables as one value. Each store method is one transaction body, a function
  from the tables and the clock readings of its first and last guard to a rollback or a commit
  (`card_transactions.dfy`, `batch_transactions.dfy`, `expiry_transactions.dfy`). `Settle` adds the
  fate of the connection: acknowledged, committed but not heard of, or aborted.
- `shard_database.dfy` is the store as an object. Its methods work on their own copy of the tables
  statement by statement, with the loops of the source, and are proved to end in exactly the
  transaction body's result. The object also carries its history of steps, and is always in the state
  that run leads to, so everything proved of runs holds of it. `workers.dfy` drives it the way one
  executor worker does.
- `executions.dfy` defines runs: any sequence of calls by anybody, where a leased call needs a token
  that some claim delivered, at any later time and any number of times. One inductive invariant
  (`shard_invariant.dfy`: ledger, forest, ownership, evidence, membership, counters, lineage, expiry
  accounts and totals) is kept by every transaction (`batch_steps.dfy`, `batch_outcomes.dfy`,
  `expiry_steps.dfy`), and a two-state relation says what is never undone (`forward_steps.dfy`).
- `card_effects.dfy`, `draft_effects.dfy`, `lease_effects.dfy`, `schedule_effects.dfy` and
  `expiry_effects.dfy` say of each call, without naming its body, when it commits, which error it meets
  otherwise and which rows it leaves, from its arguments and the rows before. They also give the exact
  life of a claim and the call behind every move of a batch or an item.
- `fencing.dfy`, `run_guarantees.dfy`, `retry_budget.dfy`, `expiry_failures.dfy`, `run_completion.dfy`,
  `step_effects.dfy` and `activations.dfy` state the results about whole runs and about single committed
  steps. `long_runs.dfy` writes out runs that reach what no bound excludes.
- `batch_refinement.dfy` proves the item-by-item loop of `ApplyBatch` equal to one atomic step.
- `pager.dfy`, `login_admission.dfy`, `refresh_families.dfy`, `idempotency.dfy`, `scheduler.dfy` and
  `backoff.dfy` are the smaller stateful cores around the shard, each a method or a class proved
  against a specification function, with the properties proved of that function.

Every induction is written out: all lemmas carry `{:induction false}`, and a recursive call is the only
induction hypothesis they have.

Identifiers are natural numbers. A UUID is a 128-bit number and its canonical text sorts like it.
An expiry run is identified by its date, which is unique per bank. Times are integers. The sets called
`skipped` are the rows that SKIP LOCKED passes over, and any set may be passed over. Random identifiers
are parameters, and a collision is modelled as the unique-key error it would be.

Places where the code and an expectation of it part, with the exact condition proved for all inputs:

- `docs/database-design.md:405` asks that an outage of central authorization alone should not exhaust a
  batch's retry budget. The code sends it through the same budget as any transient failure. A retry
  fails the batch exactly when the batch has been claimed as often as the maximum allows
  (`RetryBudget.RetryFailsExactlyWhenUsedUp`), and for every maximum there is a run in which outages
  alone bring that about (`LongRuns.OutagesAloneExhaustTheBudget`).
- `batchBackoff` is the capped power of two if and only if it is not the case that some doubling
  happened and the power is one nanosecond short of the maximum (`Backoff.DelayIsCappedDoubling`, with
  an instance in `Backoff.OddMaximumException`).
- The login limiter reads its clock before it takes its lock. For every limit, its bound holds of all
  runs whose readings lag at most d behind if and only if d is zero
  (`LoginAdmission.BoundHoldsExactlyWithoutLag`). One nanosecond is enough when the table is full
  (`LoginAdmission.EvictionBreaksTheBound`), two are enough with one source
  (`LoginAdmission.LateReadingsBreakTheBound`).
- The maximum does not bound a batch's attempts, because recovery never looks at it. With every executor
  at the maximum or below, the attempts exceed it if and only if a recovery found the batch used up and a
  later claim took it again (`RetryBudget.AttemptsPassTheMaximumExactlyWhen`). The excess is at most the
  number of recoveries (`RetryBudget.AttemptsAreBounded`) and has no bound of its own
  (`LongRuns.LostLeasesAreNotCapped`).
- `docs/card-issuer-architecture.md:140` says that activating an issued replacement atomically closes its
  predecessor. A batch may target active, and its loop closes nobody. After any activation of a
  replacement the predecessor is closed or expired if and only if the activation was a command or the
  predecessor was closed or expired before (`Activations.ActivationRetiresExactlyWhen`); a run that leaves
  both cards active is `LongRuns.BatchActivationLeavesThePredecessor`.
- The item loop of `ApplyBatch` is one atomic step if and only if no card that has to move is in two of
  the batch's items (`BatchRefinement.BatchIsAtomicExactlyWhen`); drafting guarantees the condition.

## Model

| member | source | states |
|---|---|---|
| Lifecycle.CanTransitionIsTheGraph | internal/domain/lifecycle.go:36-47 | The search over the five actions allows a direct move exactly along an edge of the lifecycle graph or to the card's own status, and calls it ignored exactly in the latter case. |
| Lifecycle.TransitionFollowsTheGraph | internal/domain/lifecycle.go:6-33 | A valid activate or resume leads to active, suspend to suspended, close to closed and expire to expired; if it is not a no-op it follows an edge; it is ignored exactly when the card is already there. |
| Lifecycle.WalksEndForGood | internal/domain/lifecycle.go:6-33 | On any walk through the graph nothing comes after closed or expired, and nothing returns to pending or issued. |
| DraftRequest.NormalizeRequest | internal/batch/service.go:222-249 | The validating loops, the sort of the private copy and the neighbour check compute the canonical request, or refuse. |
| DraftRequest.NormalizeAccepts | internal/batch/service.go:222-249 | A request is accepted exactly when target and reason are valid and there are 1 to 200 pairwise distinct canonical ids; the result is the same ids, strictly ascending. |
| DraftRequest.TrimSpaceCutsTheEnds | internal/batch/service.go:223-224 | Trimming cuts white space off the two ends and nothing else, and leaves nothing exactly when everything is white space. |
| DraftRequest.SortedIsUnique | internal/batch/service.go:237-242 | There is only one sorted arrangement of a multiset of ids, so the canonical order is unique. |
| DraftRequest.ReorderingIsTheSameRequest | internal/batch/service.go:222-249 | Any reordering of the ids normalises to the same request, hence to the same bytes and fingerprint. |
| ShardDatabase.Shard.Finish | internal/repository/shard/executor_store.go:146-149 | A transaction ends in one of three ways: its copy becomes the committed state and the caller hears so, it does and the caller sees an error, or nothing changes. |
| ShardDatabase.Shard.IssueCard | internal/repository/shard/reader.go:510-532 | Issuing with valid references inserts an issued card at version 1, its succeeded operation and its pending-to-issued history row, all or nothing. |
| ShardDatabase.Shard.ReplaceCard | internal/card/service.go:183-231 | A replacement is issued only for an active or suspended card that has no issued replacement; the successor links to it. |
| ShardDatabase.Shard.CardCommand | internal/card/service.go:127-181 | A command locks the card, decides by the lifecycle, and commits the result of the command's transaction body or leaves everything unchanged. |
| ShardDatabase.Shard.ApplyCommand | internal/repository/shard/reader.go:567-633 | The statements of a command: the operation always, and unless ignored the move, the version bump, the history row and, for activate, the predecessor's close. |
| ShardDatabase.Shard.ClosePredecessorOnActivation | internal/repository/shard/reader.go:595-612 | An active or suspended predecessor is closed with its own operation and history row; any other predecessor, or none, is left alone. |
| CardEffects.CommandsAreAnswered | internal/card/service.go:127-181 | In every run a command commits exactly when its card exists, its action may be given at the card's status and the operation ids are new; otherwise the answer is not found, invalid transition, unique violation or unsupported, by the first of these that fails. |
| CardEffects.CommandsDoWhatTheySay | internal/repository/shard/reader.go:567-612 | In every run a committed activate or resume leaves its card active, suspend suspended, close closed; with one version and one history row more exactly if that is a move; the operation is recorded as succeeded; and nothing else changes but a predecessor in use, which an activation closes with its own operation and row. |
| CardEffects.IssuingInsertsTheCard | internal/repository/shard/reader.go:510-532 | Issuing commits exactly when the references are valid and both ids are new, and then adds the issued card at version 1, its operation and its pending-to-issued row. |
| CardEffects.ReplacingInsertsASuccessor | internal/card/service.go:183-231 | Replacing commits exactly when the card is active or suspended, no issued card names it as predecessor and both ids are new; the successor is issued and linked and the card stays as it is. |
| ShardDatabase.Shard.SetExpiry | internal/repository/shard/executor_store.go:233 | The expiry date that scheduling reads may change at any time, and nothing else with it. |
| ShardDatabase.Shard.Meanwhile | internal/repository/shard/executor_store.go:23-422 | Any sequence of other callers' transactions, with any fates, extends the run by exactly those steps. |
| ShardDatabase.Shard.CreateBatch | internal/batch/service.go:64-112 | A draft is created for the normalised request when all its cards exist, with its items and queued operations in canonical card order. |
| ShardDatabase.Shard.InsertBatchItems | internal/repository/shard/reader.go:764-781 | The item loop inserts one queued operation and one pending item per card, and stops the whole transaction at the first duplicate key. |
| ShardDatabase.Shard.ExecuteBatch | internal/repository/shard/reader.go:685-698 | Only a draft is queued, due now; a batch in any other status is returned unchanged. |
| ShardDatabase.Shard.CancelBatch | internal/repository/shard/reader.go:700-716 | Only a draft or queued batch is cancelled; its items and operations stay as they are. |
| ShardDatabase.Shard.RetryBatch | internal/repository/shard/reader.go:718-762 | A failed or cancelled batch gets a new draft with the same target, reason and cards, linked to it. |
| DraftEffects.CreatingIsAnswered | internal/batch/service.go:64-112 | A draft is created exactly when the request is well formed, all its cards exist and all ids are unused; the error tells which fails first. |
| DraftEffects.TheDraftIsTheRequest | internal/repository/shard/reader.go:658-675 | A created draft has the status its trimmed text names, the trimmed reason and the actor, no attempt and no count, and for each requested card, in ascending order, one pending item with a queued activate, suspend or close. |
| DraftEffects.TheRetryRepeatsTheBatch | internal/repository/shard/reader.go:718-762 | A batch is retried exactly when it failed or was cancelled, its items are all there and all ids are unused; the new draft has its target, reason and cards, is linked to it, and belongs to whoever asked for the retry. |
| DraftEffects.ItemsAreInserted | internal/repository/shard/reader.go:764-781 | The insertions commit exactly when the operation and item ids are distinct and unused, and add one row of each per card and nothing else. |
| ShardDatabase.Shard.ClaimBatch | internal/repository/shard/executor_store.go:23-49 | The claim's transaction: select the due batch, lease it, bump version and attempts, deliver the token only with the acknowledged commit. |
| ShardDatabase.Shard.RecoverBatches | internal/repository/shard/executor_store.go:51-68 | Every processing batch whose lease has run out, of those not locked elsewhere, goes back to the queue with a new lease version. |
| ShardDatabase.Shard.ApplyBatch | internal/repository/shard/executor_store.go:70-150 | Applying a batch is one transaction whose result is that of the guarded item loop, settled by its fate. |
| ShardDatabase.Shard.ApplyItems | internal/repository/shard/executor_store.go:70-150 | First guard, then the locked rows in card order, then the checks and moves; stale at either guard and illegal moves roll everything back. |
| ShardDatabase.Shard.CheckRows | internal/repository/shard/executor_store.go:91-102 | The scan loop lets the batch through exactly when every locked card may move directly to the target. |
| ShardDatabase.Shard.MoveRows | internal/repository/shard/executor_store.go:107-138 | The item loop computes the fold of its turns over the rows and counts applied and ignored items. |
| ShardDatabase.Shard.FailBatch | internal/repository/shard/executor_store.go:155-185 | Failing a batch resolves its pending items, fails its queued operations and closes the row, between two lease guards. |
| ShardDatabase.Shard.RetryOrFail | internal/executor/service.go:160-170 | While the claim's attempt count is below the maximum the batch is requeued with the delay, otherwise it fails as exhausted. |
| LeaseEffects.RecoveryTakesTheLapsed | internal/repository/shard/executor_store.go:57-60 | Recovery changes exactly the processing rows, not locked elsewhere, whose lease time is at or before its clock reading: they are queued with no lease, a new version and due at once; the answer is their number. |
| LeaseEffects.ApplyingIsAnswered | internal/repository/shard/executor_store.go:76-149 | In every run a presented application commits exactly when the claim holds at both guards and every card of the batch is at the target or one edge from it; otherwise it is stale or an invalid transition, by the first that fails. |
| LeaseEffects.FailingClosesTheBatch | internal/repository/shard/executor_store.go:155-185 | A failure commits exactly when the claim holds at both guards; it closes the row with the safe code, fails the batch's queued operations and changes no card, no history and no other batch's item. |
| LeaseEffects.RetryingRequeuesOrFails | internal/executor/service.go:160-170 | With attempts left a retry commits exactly when the claim holds and requeues the row, due after the delay; without, it is a failure with the exhausted code. |
| LeaseEffects.EveryMoveHasItsCall | internal/repository/shard/executor_store.go:23-200 | In every run a batch's row changes only together with its status, and each of the moves between statuses is made by its own call: a claim when due, a recovery when the lease ran out, an outcome by a token of the batch. |
| LeaseEffects.ClaimsLiveTheirLease | internal/repository/shard/executor_store.go:30-60 | In every run a delivered token that is alive stays alive until its lease time or its own committed use, whichever comes first, and is dead from then on; nobody else's call ends it. |
| LeaseEffects.ClaimsStartAlive | internal/repository/shard/executor_store.go:39-48 | Every claim that is heard of, with a positive lease, starts alive for the lease it asked for. |
| ShardDatabase.Shard.EnsureExpiryRun | internal/repository/shard/executor_store.go:221-270 | The run of a date is opened, reopened when new cards are due, given an operation and an item per selected card, and recounted. |
| ShardDatabase.Shard.ScheduleRun | internal/repository/shard/executor_store.go:250-269 | The scheduling loop equals the fold of one insertion pair per selected card, all or nothing. |
| ShardDatabase.Shard.ClaimExpiryItem | internal/repository/shard/executor_store.go:272-295 | The claim's transaction for expiry items: the due pending item that comes first gets a lease, a new version and a retry-count snapshot in its token. |
| ShardDatabase.Shard.RecoverExpiryItems | internal/repository/shard/executor_store.go:297-335 | Every item with a lost lease is charged an attempt and goes back to pending, or to the manual queue after three, and its run is completed if nothing is left. |
| ShardDatabase.Shard.CompleteEach | internal/repository/shard/executor_store.go:326-330 | The loop over the recovered rows' runs completes them one after another. |
| ShardDatabase.Shard.ApplyExpiryItem | internal/repository/shard/executor_store.go:337-382 | Expiring a card is one transaction between two lease guards, ending with its run completed if nothing is left. |
| ShardDatabase.Shard.RequeueExpiryItem | internal/repository/shard/executor_store.go:383-407 | A failed attempt returns the item to pending with the delay, or to the manual queue when the claim's snapshot shows three automatic retries. |
| ShardDatabase.Shard.ManualExpiryRetry | internal/repository/shard/reader.go:635-645 | Only an item waiting for manual retry whose card is not expired is made pending again, and a completed run is reopened with it; otherwise nothing changes. |
| ExpiryEffects.ItemClaimTakesTheEarliestDue | internal/repository/shard/executor_store.go:279-290 | A claim takes the pending, due, unlocked item with the least next attempt time, ties by id, changes only its lease and status, hands out a snapshot of it, and reports no work only when none is due. |
| ExpiryEffects.ItemRecoveryTakesTheLapsed | internal/repository/shard/executor_store.go:303-308 | Recovery changes exactly the items in progress, not locked elsewhere, whose lease time is at or before its clock reading: each is charged an attempt and is pending, or waits for a manual retry after three, due at once; the answer is their number. |
| ExpiryEffects.RequeueingIsAFailedAttempt | internal/repository/shard/executor_store.go:383-403 | A requeue commits exactly when the claim holds; the item is charged an attempt and due after the delay, pending while the claim saw fewer than three automatic retries. |
| ExpiryEffects.ApplyingExpires | internal/repository/shard/executor_store.go:337-382 | An expiry commits exactly when the claim holds at both guards and the card exists and is not closed; every row it changes is given, the card's only if it was not expired before. |
| ExpiryEffects.ManualRetryReopens | internal/repository/shard/reader.go:635-645 | A manual retry commits exactly when the item of that day waits for one and its card is not expired; it is pending, due at once, counted, and its run is open. |
| ExpiryEffects.EveryItemMoveHasItsCall | internal/repository/shard/executor_store.go:221-407 | In every run an item's row changes only together with its status, and each move is made by its own call. |
| ExpiryEffects.ItemClaimsLiveTheirLease | internal/repository/shard/executor_store.go:279-308 | In every run a live token of an item stays alive until its lease time or its own committed use, and is dead from then on. |
| ExpiryEffects.ItemDelayIsHonoured | internal/repository/shard/executor_store.go:393 | In every run any later claim of an item that a requeue left pending comes at or after the delay the requeue asked for. |
| RunCompletion.RunsCloseExactly | internal/repository/shard/executor_store.go:419-422 | In every reachable state an expiry run is completed if and only if it has items and none of them is pending or in progress. |
| BatchRefinement.ApplyBatchIsAtomic | internal/repository/shard/executor_store.go:70-150 | Under the evidence and membership invariants the guarded item loop equals one atomic step: every card of the batch that is not at the target moves there with one version bump, and every item, operation, history row and counter follows, or nothing changes. |
| BatchRefinement.LoopIsAfter | internal/repository/shard/executor_store.go:107-138 | The loop over any list of distinct ready rows equals one simultaneous update of the cards, items, operations and history. |
| BatchRefinement.CountersAreTallies | internal/repository/shard/executor_store.go:107-139 | The counters the loop keeps are the numbers of items it leaves applied and ignored. |
| BatchRefinement.LegalityOfRows | internal/repository/shard/executor_store.go:91-99 | The scan accepts exactly when every card of the batch is at the target or one lifecycle edge away from it. |
| BatchRefinement.LoopIsAtomicExactlyWhen | internal/repository/shard/executor_store.go:107-138 | Over any rows with distinct items and operations, the loop is the simultaneous update if and only if no card that has to move is in two rows. |
| BatchRefinement.RepeatedCardsAreBumpedAgain | internal/repository/shard/executor_store.go:107-138 | A card that has to move and is in two rows has its version bumped by the loop once for each row that moves it, so at least twice. |
| BatchRefinement.BatchIsAtomicExactlyWhen | internal/repository/shard/executor_store.go:79-138 | On the tables: the loop of a processing batch is atomic if and only if every card that is in two of its items is at the target already. |
| RunGuarantees.LoopUpdatesAlwaysHit | internal/repository/shard/executor_store.go:76-135 | In every reachable state in which a lease passes the guard, the locked rows are all of the batch, and each turn of the loop finds its item pending, its operation queued and its card as the lock saw it, so the unchecked updates never miss. |
| RunGuarantees.FailUpdatesAlwaysHit | internal/repository/shard/executor_store.go:161-169 | Likewise for a failing batch: each of its items is pending, with an existing card and a queued operation. |
| RunGuarantees.ExpiryUpdatesAlwaysHit | internal/repository/shard/executor_store.go:342-365 | Likewise for an expiry: the holder of a live lease finds its card and its queued operation. |
| Executions.EveryRunKeepsInv | internal/repository/shard/executor_store.go:23-422 | In every run of all writers, with stale and repeated tokens and lost acknowledgements, every table invariant holds and every delivered token agrees with its row. |
| Executions.RunsGoForward | internal/repository/shard/executor_store.go:23-422 | Between any two points of a run, history is only appended to, terminal batches and resolved items are frozen, and lease versions, attempts and retry counts never decrease. |
| Executions.NewTokensOk | internal/repository/shard/executor_store.go:39-48 | Only claims deliver tokens, and a token is a snapshot of the row its claim left behind. |
| ShardInvariant.CommandKeepsInv | internal/repository/shard/reader.go:567-612 | A card command, with the predecessor it may close, keeps every invariant of the shard. |
| ShardInvariant.ReplaceKeepsInv | internal/card/service.go:183-231 | Issuing a replacement keeps every invariant, in particular one issued successor per card and links to older cards. |
| BatchSteps.CreateKeepsInv | internal/repository/shard/reader.go:658-675 | Creating a draft from a normalised request keeps every invariant, in particular one item per card. |
| BatchSteps.RetryKeepsInv | internal/repository/shard/reader.go:718-762 | Retrying a batch keeps every invariant, in particular the lineage. |
| BatchOutcomes.ApplyKeepsInv | internal/repository/shard/executor_store.go:70-150 | Applying a batch keeps every invariant: the ledger, the evidence of its items and of all others, the counters, the forest and the expiry side. |
| BatchOutcomes.FailKeepsInv | internal/repository/shard/executor_store.go:155-185 | Failing a batch keeps every invariant. |
| ExpirySteps.ApplyItemKeepsInv | internal/repository/shard/executor_store.go:337-382 | Expiring or skipping an item keeps every invariant, run totals included. |
| ExpirySteps.EnsureKeepsInv | internal/repository/shard/executor_store.go:221-270 | Scheduling keeps every invariant: one item per card and run, a right item count, an open run. |
| ExpirySteps.RecoverItemsKeepsInv | internal/repository/shard/executor_store.go:297-335 | Recovering lost leases keeps every invariant. |
| Fencing.DeadTokensChangeNothing | internal/repository/shard/executor_store.go:76-78 | Once a token's claim is over or its lease has lapsed, every later use of it, by apply, fail or requeue, is stale and changes nothing. |
| Fencing.EveryMoveKillsOlderTokens | internal/repository/shard/executor_store.go:57-60 | A newer claim, a recovery or any committed use ends every token of that batch handed out before. |
| Fencing.SupersededTokensChangeNothing | internal/repository/shard/executor_store.go:139-145 | A token superseded by a recovery or a newer claim gets the stale error and changes nothing, ever after. |
| Fencing.TokensAreSpentOnce | internal/repository/shard/executor_store.go:139-150 | Of all uses of one token at most one commits, also when the first one's acknowledgement was lost. |
| Fencing.LiveTokenIsUnique | internal/repository/shard/executor_store.go:39-40 | At any time at most one delivered token of a batch is alive. |
| Fencing.ClaimVersionsGrow | internal/repository/shard/executor_store.go:39-40 | No two claims of a batch carry the same lease version: they strictly grow, acknowledged or not. |
| Fencing.EffectsCommitOnce | internal/repository/shard/executor_store.go:139-150 | After an application or failure of a batch has committed, no further outcome, claim or recovery of it ever commits. |
| Fencing.TerminalBatchesAreFrozen | internal/repository/shard/reader.go:700-716 | Succeeded, failed and cancelled are never left: the row, its items and their history rows stay the same forever. |
| Fencing.TerminalBatchesAreLeftAlone | internal/repository/shard/executor_store.go:30-60 | No claim, recovery or outcome of a terminal batch ever commits, cancelled ones included. |
| Fencing.DeadItemTokensChangeNothing | internal/repository/shard/executor_store.go:408-418 | The same fencing for expiry items: a dead token is stale forever. |
| Fencing.ItemTokensAreSpentOnce | internal/repository/shard/executor_store.go:371-377 | One claim of an expiry item is applied once or requeued once, never both and never twice. |
| Fencing.SupersededItemTokensChangeNothing | internal/repository/shard/executor_store.go:303-308 | An expiry token superseded by a recovery or a newer claim is refused and changes nothing. |
| Workers.RunBatch | internal/executor/service.go:126-170 | The first call is a failure above the size cap, a retry when authorization cannot be told, a failure when it is denied and an application only when it is allowed; a second call follows only a failed application and is a retry after a transient error, a failure after any other and none when stale; with any steps of others in between at most one took effect, only the application changes a card, and without authorization or above the cap no card is changed. |
| Workers.BatchWorker | internal/executor/service.go:126-128 | Whichever way the work returns, its deferred release gives back exactly its own reservation. |
| Workers.RunExpiry | internal/executor/service.go:172-191 | The worker applies; after a transient error it requeues with the configured delay, after any other but stale with one second; with any steps of others in between at most one of the two took effect, and the requeue changes no card. |
| Workers.ExpiryWorker | internal/executor/service.go:172-174 | Its deferred release gives back exactly its own reservation. |
| RunGuarantees.CardStories | internal/repository/shard/reader.go:516-633 | In every reachable state each card's history starts pending to issued, joins end to start along lifecycle edges, ends at the card's status and has as many rows as its version; an unknown card has none. |
| RunGuarantees.CardsNeverTurnBack | internal/domain/lifecycle.go:6-33 | In every run no status a card has left is final, and after its issue it is never pending or issued again. |
| CardLedger.ReplayGivesChains | internal/repository/shard/executor_store.go:122-131 | If the whole history replays onto the cards, every card's own rows form such a chain. |
| CardLedger.ChainsReplay | internal/repository/shard/executor_store.go:122-131 | Conversely, a history whose per-card rows are chains replays. |
| RunGuarantees.FinalCardsNeverMove | internal/domain/lifecycle.go:6-33 | A closed or expired card keeps its status, version and history for the rest of the run. |
| RunGuarantees.IgnoredCommandsAddNothing | internal/repository/shard/reader.go:567-585 | An ignored command records its operation and changes no card and no history. |
| RunGuarantees.ActivationRetiresThePredecessor | internal/repository/shard/reader.go:579-612 | A committed activation by command leaves the predecessor closed or expired. |
| RunGuarantees.BatchesMoveOnlyTheirCards | internal/repository/shard/executor_store.go:107-138 | A committed application changes no card outside its batch. |
| StepEffects.BatchActivationRetiresNobody | internal/repository/shard/executor_store.go:107-138 | A committed application that activates a replacement leaves its predecessor closed or expired exactly when it was so before, whether or not the predecessor is in the batch itself. |
| Activations.TwoWaysToActivate | internal/repository/shard/reader.go:567-633 | In every run an issued card becomes active only by a committed activate command of its own or as a member of a committed batch with target active. |
| Activations.ActivationRetiresExactlyWhen | docs/card-issuer-architecture.md:140 | In every run, after the activation of a replacement by anybody, its predecessor is closed or expired if and only if the activation was a command or the predecessor was closed or expired before. |
| LongRuns.BatchActivationLeavesThePredecessor | internal/repository/shard/executor_store.go:122 | For every owner and positive lease there is a run from the empty shard after which a replacement, activated by batch, and its predecessor are both active. |
| RunGuarantees.NoCardIsItsOwnAncestor | internal/repository/shard/reader.go:549-565 | In every reachable state predecessor links form no cycle. |
| RunGuarantees.PredecessorsInEveryRun | internal/repository/shard/reader.go:543-565 | A predecessor exists, is neither pending nor issued, and has at most one issued successor. |
| RunGuarantees.ItemEvidence | internal/repository/shard/executor_store.go:108-183 | For every batch item: while the batch is open or cancelled it is pending with a queued operation and no history; in a succeeded batch it is applied with exactly its own history row or ignored with none; in a failed batch its operation failed and there is no history. |
| RunGuarantees.BatchTotals | internal/repository/shard/executor_store.go:139-183 | A batch's counts are the tallies of its items, in a succeeded batch they sum to the item count, and a lease is held exactly while processing. |
| RunGuarantees.RetryChains | internal/repository/shard/reader.go:718-762 | Every batch at the end of a chain of retries has the root's target, reason, card set and item count. |
| RunGuarantees.RequestsAreFixed | internal/repository/shard/reader.go:658-781 | A batch's target, reason, retry link, count and card set never change after it is created. |
| RunGuarantees.ExpiryItemEvidence | internal/repository/shard/executor_store.go:351-371 | An expired item has a succeeded operation and exactly one history row into expired; a skipped one has a succeeded operation and none; any other has a queued operation and none. |
| RunGuarantees.ExpiryAttempts | internal/repository/shard/executor_store.go:303-308 | Attempts are automatic plus manual retries plus one when settled; automatic retries are at most three, spent before any manual one; so attempts are at most four plus the manual retries. |
| RunGuarantees.LiveSnapshotIsTheRow | internal/repository/shard/executor_store.go:389-393 | The retry count, card, operation and lease in a live expiry token are the row's. |
| RunGuarantees.RunTotals | internal/repository/shard/executor_store.go:419-422 | A completed run has no pending or processing item and its three counts are exact and sum to the item count; a run with such an item is open. |
| RetryBudget.AttemptsBalance | internal/repository/shard/executor_store.go:39-60 | A batch's attempt count is the number of its committed claims, and each of them was requeued, recovered, or is the last one. |
| RetryBudget.RequeuesAreBounded | internal/executor/service.go:160-170 | With every executor's maximum at or below M, at least 1, a batch is requeued at most M - 1 times. |
| RetryBudget.AttemptsAreBounded | internal/repository/shard/executor_store.go:57-60 | Attempts and claims of a batch are at most M plus its lease recoveries. |
| RetryBudget.AttemptsPassTheMaximumExactlyWhen | internal/repository/shard/executor_store.go:57-60 | With every executor's maximum at or below M, at least 1, a batch has more than M attempts if and only if some recovery found it with M or more and a later claim took it again. |
| LongRuns.LostLeasesAreNotCapped | internal/repository/shard/executor_store.go:57-60 | From the empty shard, with any positive lease duration waited out, a batch whose every lease is lost has as many attempts as recoveries, any number of them, and is still queued, whatever the maximum. |
| RetryBudget.RetryFailsExactlyWhenUsedUp | internal/executor/service.go:160-170 | In every run a committed retry fails its batch, as exhausted, if and only if the batch has been claimed at least as often as the maximum; otherwise the batch is queued. |
| LongRuns.OutagesAloneExhaustTheBudget | internal/executor/service.go:134-138 | For every maximum there is a run from the empty shard whose only outcomes are retries after authorization outages and which ends with the batch failed as exhausted. |
| RetryBudget.BackoffIsHonoured | internal/repository/shard/executor_store.go:152-154 | In every run any later claim of a requeued batch, by any executor, comes at or after the delay its requeue asked for. |
| ExpiryFailures.RetriesCountFailures | internal/repository/shard/executor_store.go:303-308 | In every run an item's automatic retries are its failed attempts, requeued or recovered, up to three. |
| ExpiryFailures.ThreeFailuresRetryFourGiveUp | internal/repository/shard/executor_store.go:383-404 | In every run an item's first three failed attempts return it to pending, and the fourth, and every later one after a manual retry, sends it to the manual queue. |
| LongRuns.ExpiryIsReached | internal/repository/shard/executor_store.go:221-295 | A card with an expiry date gets scheduled, and a worker gets a token for it. |
| RetryBudget.MovesRunOut | internal/executor/service.go:160-170 | A natural-number measure falls with every claim and every committed outcome of a batch and rises, by one, only with a recovery; so without recoveries the batch is claimed finitely often. |
| StepEffects.ClaimTakesTheEarliestDue | internal/repository/shard/executor_store.go:30-48 | A claim takes the due, unlocked batch with the least next attempt time, ties by id, changes only its lease, version, attempts and status, hands out a snapshot of it, and reports no work only when none is due. |
| StepEffects.AppliedCardsReachTheTarget | internal/repository/shard/executor_store.go:107-150 | After a committed application every card of the batch is at the target, with one version more exactly if it was not there before. |
| StepEffects.FailureReportsTheCards | internal/repository/shard/executor_store.go:164-171 | A failed batch marks an item ignored exactly when its card was at the target, otherwise not applied with the safe code, and moves no card. |
| StepEffects.ExpiryEndsExpired | internal/repository/shard/executor_store.go:345-371 | A committed expiry leaves the card expired and no other card changed, keeps or sets its expiry time, and marks the item expired or skipped. |
| ScheduleEffects.EnsureSchedulesWhoOwes | internal/repository/shard/executor_store.go:232-268 | Scheduling takes exactly the 200 least, or all, of the open, unlocked cards whose expiry date is before the end of the day and which have no item in the run; it commits exactly when there are unused ids for them, and adds a pending item due at once and a queued expire operation for each, nothing else but the run's count and its reopening. |
| ScheduleEffects.EnsureSchedulesTheDue | internal/repository/shard/executor_store.go:232-264 | When at most 200 cards owe an expiry, each of them has a new pending item after the transaction. |
| Pager.Collection | internal/server/resource.go:220-275 | The handler's scan and slice answer with the specified page, next cursor or error, for every list, size and cursor. |
| Pager.OnePage | internal/server/resource.go:246-274 | On a list in keyset order a page is the first rows after the cursor, as many as asked for (50 when nothing is asked) or all that are left, and the next cursor points at its last row exactly when rows are left. |
| Pager.BadRequestsAreRefused | internal/server/resource.go:222-236 | A size that is no number from 1 to 200 is refused, and a cursor that is unsigned, made for another collection, bank or filter, or unreadable; nothing else is. |
| Pager.TraversalIsExact | internal/server/resource.go:220-275 | Following next cursors to the end over changing lists, with any page sizes, delivers every item, known by its creation time and id, that was in all of them exactly once, however its row changed meanwhile, and no item twice. |
| Pager.NothingIsMissed | internal/server/resource.go:246-256 | An item present in every list the traversal saw, in whatever version, is delivered. |
| Pager.NothingIsInvented | internal/server/resource.go:257-261 | Every delivered row was in some list the traversal saw. |
| Pager.FixedListIsReassembled | internal/server/resource.go:220-275 | On an unchanging list the pages concatenate to the list. |
| Pager.FixedListTraversalEnds | internal/server/resource.go:257-274 | On an unchanging list the end is reached within as many requests as rows and one more. |
| LoginAdmission.Limiter.Allow | internal/server/login_admission.go:38-66 | One attempt changes the table and answers as specified, including the retry delay, and keeps the table at most 10,000 sources with counts within the limit. |
| LoginAdmission.Limiter.EvictExpired | internal/server/login_admission.go:68-74 | The loop removes exactly the windows that are over. |
| LoginAdmission.TableStaysBounded | internal/server/login_admission.go:49-58 | Every attempt keeps the table at most 10,000 sources and the counts within the limit; the limiter object carries it from its creation on. |
| LoginAdmission.LiveWindowsStay | internal/server/login_admission.go:44-74 | No attempt of anyone removes or shortens a live window, or changes another source's. |
| LoginAdmission.RefusedExactlyWhen | internal/server/login_admission.go:48-62 | An attempt is refused exactly when the source's live window is used up, or it has none and 10,000 live windows fill the table. |
| LoginAdmission.WaitingIsEnough | internal/server/login_admission.go:60-62 | Waiting the returned delay of one's own window is enough, and nothing shorter is. |
| LoginAdmission.AdmissionsAreBounded | internal/server/login_admission.go:38-74 | With clock readings in lock order, any half-open interval one period long admits at most 2 * limit - 1 attempts per source. |
| LoginAdmission.BoundIsReached | internal/server/login_admission.go:38-66 | For every limit there is an ordered run that admits exactly that many. |
| LoginAdmission.LateReadingsBreakTheBound | internal/server/login_admission.go:38-43 | For every limit and source, a run whose readings lag at most two nanoseconds admits 3 * limit - 2 attempts in one period. |
| LoginAdmission.EvictionBreaksTheBound | internal/server/login_admission.go:49-58 | For every limit and source, with a full table a run whose readings lag at most one nanosecond admits 2 * limit. |
| LoginAdmission.BoundHoldsExactlyWithoutLag | internal/server/login_admission.go:38-74 | For every limit the bound holds of all runs whose readings lag at most d if and only if d is zero. |
| RefreshFamilies.AuthStore.Login | internal/auth/service.go:41-101 | A login of an enabled user with a valid password creates a session at the user's version and its root token, both expiring after seven days. |
| RefreshFamilies.AuthStore.Rotate | internal/auth/service.go:103-174 | A refresh consumes a usable token and issues one successor with the session's expiry; a replay revokes the session; any other failure changes nothing. |
| RefreshFamilies.AuthStore.Logout | internal/auth/service.go:176-209 | Logout revokes the token's session; an unknown token is accepted without effect. |
| RefreshFamilies.AuthStore.ChangePassword | internal/auth/service.go:211-266 | A successful change advances the user's authorization version; a failed one changes nothing. |
| RefreshFamilies.AuthStore.StaffChange | database/SCHEMA.md:351 | A staff change of a user advances the authorization version as well. |
| RefreshFamilies.LoginIssuesExactlyWhen | internal/auth/service.go:41-101 | A login issues exactly when the user is there and enabled, the password is right and the ids are new: one session and its root token for seven days; otherwise no table changes. |
| RefreshFamilies.RefreshIssuesExactlyWhen | internal/auth/service.go:114-158 | A refresh issues exactly when the token is unconsumed and unexpired, its session unrevoked, unexpired and at the version of an enabled user, and the successor new. |
| RefreshFamilies.RefusedRefreshOnlyRevokes | internal/auth/service.go:126-140 | A refused refresh changes nothing, except that a consumed token's session is revoked. |
| RefreshFamilies.PasswordChangesExactlyWhen | internal/auth/service.go:211-266 | A password changes exactly when the new one is acceptable, the user is there and enabled and the current one is right; otherwise no table changes. |
| RefreshFamilies.DisabledUsersStayOut | internal/auth/service.go:126-127 | In every run, from a committed disabling until staff enable the user again, no login as the user and no refresh of the user's sessions issues anything. |
| RefreshFamilies.FamilyShape | internal/auth/service.go:82-174 | In every interleaving a session's tokens are one simple parent chain of length 1 plus its refreshes, all with the session's fixed expiry, whose tip is the only unconsumed token. |
| RefreshFamilies.FamiliesAreChains | internal/repository/auth/store.go:86-103 | The invariant behind it: parents, consumption, distinctness and completeness of every family in every run. |
| RefreshFamilies.TokensRotateOnce | internal/auth/service.go:114-158 | Of any number of refreshes presenting one token at most one succeeds. |
| RefreshFamilies.ReplayRevokes | internal/auth/service.go:126-140 | A second use of a rotated token leaves the session revoked, is refused, and no refresh of the family succeeds afterwards. |
| RefreshFamilies.EndedForGood | internal/auth/service.go:126-127 | After revocation or an advance of the user's version no refresh in the family ever succeeds again. |
| RefreshFamilies.LogoutEnds | internal/auth/service.go:176-209 | Logging out with any token of the family, consumed or not, ends it. |
| RefreshFamilies.PasswordChangeEndsAll | database/SCHEMA.md:351 | A password change ends every session its user had, in the same transaction. |
| Idempotency.Workflows.ClaimIdempotency | internal/repository/shard/transaction.go:19-59 | Load, insert on conflict do nothing, and reload are together one atomic claim on the records they end up facing, whatever committed in between. |
| Idempotency.Workflows.Submit | internal/card/service.go:127-181 | Claim, act, finish and commit form one step: a replayed, refused or conflicting request changes nothing, a fresh one commits its effect with its finished record. |
| Idempotency.Workflows.RunInBackground | internal/executor/service.go:126-191 | The executors' transactions commit on the same tables between requests and touch no record. |
| Idempotency.RequestsPerformExactlyWhen | internal/repository/shard/transaction.go:19-68 | A request performs exactly when its key has no record alive and its transaction commits; the record is then finished and alive for seven days; otherwise nothing changes and the answer is the stored one, a conflict or the problem met. |
| Idempotency.EffectsAreExactlyOnce | internal/repository/shard/transaction.go:19-68 | In every run, with executor transactions in between, the effects of one key lie at least a record lifetime apart, and the tables are what the committed transactions made of them, each once. |
| Idempotency.AtMostOncePerLifetime | internal/repository/shard/transaction.go:33-43 | Two requests of one key both perform only if the second is claimed at or after the first one's expiry. |
| Idempotency.LaterClaimsReplay | internal/repository/shard/transaction.go:33-40 | A record answers the same request with its stored response and status and a different one with a conflict, and nothing changes, as long as no claim of its key has read a clock at or after its expiry; clock readings need not follow the order of commits. |
| Idempotency.RecordsAreFinished | internal/repository/shard/transaction.go:61-68 | Every record another transaction can see is the finished record of a committed effect; a rolled-back attempt leaves none. |
| Idempotency.FailuresLeaveTheKeyFree | internal/repository/shard/transaction.go:44-58 | However many requests of a key were refused or lost, until one performs there is no record of it. |
| Scheduler.ReservationsAreConserved | internal/executor/service.go:248-263 | Under any interleaving of the cycle and its workers, the total equals the per-bank sum and the running workers plus held reservations, each bank's count is exact and within its limit, and the total is within the maximum. |
| Scheduler.EachReservationIsReleasedOnce | internal/executor/service.go:90-128 | Reservations taken are those released plus those held or running. A release presupposes its owner; that every path of the cycle and of a worker releases what it owns once is what `Service.TryClaim`, `Service.Cycle`, `Workers.BatchWorker` and `Workers.ExpiryWorker` prove. |
| Scheduler.Service.Reserve | internal/executor/service.go:248-257 | A reservation is taken exactly when both limits leave room. |
| Scheduler.Service.Release | internal/executor/service.go:258-263 | A release gives back one unit of one owner and keeps the counters exact. |
| Scheduler.Service.TryClaim | internal/executor/service.go:91-105 | A reservation ends with a worker or is given back, on every answer of the store. |
| Scheduler.Service.Cycle | internal/executor/service.go:90-124 | Whatever the store answers and whenever workers end, the cycle leaves no reservation without a worker, on early error returns too. |
| Scheduler.Service.Rotate | internal/executor/service.go:237-246 | The returned order and the next counter are those specified. |
| Scheduler.RotationKeepsBanks | internal/executor/service.go:237-246 | The order is a rotation of the input with the same banks. |
| Scheduler.EveryBankLeadsOnce | internal/executor/service.go:237-246 | Over n consecutive calls on the same n banks, n at least 2, each bank is first exactly once. |
| Backoff.BatchBackoff | internal/executor/config.go:135-147 | The doubling loop never leaves 64-bit range and returns the specified delay. |
| Backoff.DelayIsCappedDoubling | internal/executor/config.go:135-147 | The delay is min(initial * 2^(attempt-1), maximum) if and only if not (attempt at least 2 and that power is maximum - 1); always for an even maximum. |
| Backoff.DelayIsBoundedAndMonotone | internal/executor/config.go:135-147 | The delay stays between initial and maximum and never shrinks for a later attempt. |
| Backoff.OddMaximumException | internal/executor/config.go:135-147 | An instance of the exception: from 1 with maximum 3 the second attempt waits 3. |

## Left out

- SQL text, connections, row-level security and grants: each store method's guarded statements are taken as the step.
- Isolation finer than one transaction: a store method is one serialised step with a clock reading at its first and last guard, so nothing is claimed about lock waits, deadlocks, or two last items of a run that end at the same moment.
- More than one bank: every statement filters by bank, so the tables are those of one bank. Runs are identified by their date.
- Audit events, actor, request and timestamp columns such as activated_at, the failure code of expiry items, and client, account and product references beyond their validity flag.
- cards.expires_at is set by no code path before a card expires, so the model lets anyone set it at any time (`Shard.SetExpiry`).
- Schema triggers and check constraints, except the advance of auth_version: what is proved does not rely on them.
- The worker's retry delay is a parameter: `Backoff.BatchBackoff` computes it in nanoseconds, the tables keep microseconds.
- Fetching of a batch's authorization from the directory: its three possible answers are a parameter of the worker.
- Cryptography, tokens' encodings, password hashing and fingerprints: opaque values compared for equality. JSON and URL parsing likewise: a row, cursor or id is well formed or not.
- Text ids are numbers, so requests that differ only in how an invalid id is spelled are all malformed ones.
- The listing of the bank directory: its rows are ordered by one time and keyed by another, so the pager's precondition does not hold there.
- Bank provisioning, bank patches, staff and catalog workflows: bank workflows commit their claim before the effect, so the exactly-once result does not cover them.
- Vault provisioning and its compensation around issuing and replacing.
- HTTP routing, configuration parsing, health, metrics, TLS and the parsing of client addresses.
- The first half of the executor's cycle in the scheduler object, where a failing store call returns before any reservation is made.
- Liveness: poll intervals, drain timeouts and fairness of goroutines.
