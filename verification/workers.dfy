// runBatch and runExpiry of internal/executor/service.go: what one worker does with one claim.
module Workers {
  import opened Tables
  import opened Executions
  import opened Fencing
  import opened BatchTransactions
  import opened ExpiryTransactions
  import opened LeaseEffects
  import opened ExpiryEffects
  import opened ShardDatabase
  import S = Scheduler

  // The directory's answer about the requester: still allowed, no longer, or not reachable now.
  datatype Authorization = Allowed | Denied | Unknown

  // What a store call meets on its way: time, the fate of its commit, and whether a lost
  // connection reads as a transient error.
  datatype Weather = Weather(wait1: nat, wait2: nat, fate: Fate, transient: bool)

  datatype Limits = Limits(sizeCap: nat, maxAttempts: nat, delay: nat)

  function StepOf(call: Call, w: Weather): Step {
    Step(call, w.wait1, w.wait2, w.fate)
  }

  lemma {:induction false} TokensStay(steps: seq<Step>, from: nat, token: BatchToken)
    requires from <= |steps| && token in Run(steps[..from]).batchTokens
    ensures token in Run(steps).batchTokens
  {
    RunsGoForward(steps, from, |steps|);
    assert steps[..|steps|] == steps;
  }

  // Of the worker's own calls, the first and the last new step, at most one took effect.
  predicate OneEffect(steps: seq<Step>, from: nat) {
    from < |steps| && (from < |steps| - 1 ==> !CommitsAt(steps, from) || !CommitsAt(steps, |steps| - 1))
  }

  // Of these own calls, only an application changes a card.
  predicate OnlyApplyingMoves(steps: seq<Step>, from: nat) {
    from < |steps| &&
    (At(steps, from + 1).db.cards != At(steps, from).db.cards ==> steps[from].call.ApplyBatch?) &&
    (from < |steps| - 1 ==> Run(steps).db.cards == At(steps, |steps| - 1).db.cards)
  }

  lemma {:induction false} OutcomesMoveNoCard(steps: seq<Step>, k: nat)
    requires k < |steps| && (steps[k].call.FailBatch? || steps[k].call.RetryOrFail?)
    ensures At(steps, k + 1).db.cards == At(steps, k).db.cards
  {
    hide Run, FailBatchTx, RetryOrFailTx;
    var w, s := At(steps, k), steps[k];
    CommittedStep(steps, k);
    var now1, now2 := w.clock + s.wait1, w.clock + s.wait1 + s.wait2;
    if s.call.FailBatch? {
      FailingClosesTheBatch(w.db, s.call.batchToken, s.call.code, now1, now2);
    } else {
      FailingClosesTheBatch(w.db, s.call.batchToken, RetryExhausted, now1, now2);
      RetryingRequeuesOrFails(w.db, s.call.batchToken, s.call.maxAttempts, s.call.code, s.call.delay, now1, now2);
    }
  }

  lemma {:induction false} OwnMoves(steps: seq<Step>, from: nat)
    requires from < |steps|
    requires steps[from].call.ApplyBatch? || steps[from].call.FailBatch? || steps[from].call.RetryOrFail?
    requires from < |steps| - 1 ==> steps[|steps|-1].call.FailBatch? || steps[|steps|-1].call.RetryOrFail?
    ensures OnlyApplyingMoves(steps, from)
    ensures !steps[from].call.ApplyBatch? ==> At(steps, from + 1).db.cards == At(steps, from).db.cards
  {
    hide Run;
    if !steps[from].call.ApplyBatch? { OutcomesMoveNoCard(steps, from); }
    if from < |steps| - 1 {
      OutcomesMoveNoCard(steps, |steps| - 1);
      assert steps[..|steps|] == steps;
    }
  }

  // A worker's first call is decided by size and authorization. Only a failed application has a second
  // one: a retry after a transient error, a failure after any other, and none when the claim is stale.
  // Whatever others do in between, and also when the first call committed without the worker hearing of
  // it, at most one of the two took effect; and without authorization, or above the size cap, no card
  // is touched.
  method RunBatch(shard: Shard, token: BatchToken, limits: Limits, authorization: Authorization,
      first: Weather, between: seq<Step>, second: Weather)
    requires shard.Valid() && token in shard.batchTokens
    modifies shard
    ensures shard.Valid() && |shard.steps| > |old(shard.steps)|
    ensures var call := shard.steps[|old(shard.steps)|].call;
      if token.itemCount > limits.sizeCap then call == FailBatch(token, TransitionRejected)
      else if authorization == Unknown then
        call == RetryOrFail(token, limits.maxAttempts, ControlUnavailable, limits.delay)
      else if authorization == Denied then call == FailBatch(token, AuthorizationRevoked)
      else call == ApplyBatch(token)
    ensures var was := old(shard.steps);
      var one := StepOf(shard.steps[|was|].call, first);
      var reply := Answer(Run(was), one);
      if token.itemCount > limits.sizeCap || authorization != Allowed || !reply.Refused? || reply.error == Stale then
        shard.steps == was + [one]
      else if reply.error == ConnectionLost && first.transient then
        shard.steps == was + [one] + between +
          [StepOf(RetryOrFail(token, limits.maxAttempts, DependencyUnavailable, limits.delay), second)]
      else
        shard.steps == was + [one] + between + [StepOf(FailBatch(token, TransitionRejected), second)]
    ensures OneEffect(shard.steps, |old(shard.steps)|)
    ensures OnlyApplyingMoves(shard.steps, |old(shard.steps)|)
    ensures token.itemCount > limits.sizeCap || authorization != Allowed ==>
      shard.Now().db.cards == old(shard.Now().db.cards)
  {
    hide Run, Body, CommitsAt, OnlyApplyingMoves;
    ghost var was := shard.steps;
    var reply: Reply;
    if token.itemCount > limits.sizeCap {
      reply := shard.FailBatch(token, TransitionRejected, first.wait1, first.wait2, first.fate);
      OneCallOnly(shard.steps, was);
      return;
    }
    if authorization == Unknown {
      reply := shard.RetryOrFail(token, limits.maxAttempts, ControlUnavailable, limits.delay, first.wait1,
        first.wait2, first.fate);
      OneCallOnly(shard.steps, was);
      return;
    }
    if authorization == Denied {
      reply := shard.FailBatch(token, AuthorizationRevoked, first.wait1, first.wait2, first.fate);
      OneCallOnly(shard.steps, was);
      return;
    }
    reply := shard.ApplyBatch(token, first.wait1, first.wait2, first.fate);
    OwnMoves(shard.steps, |was|);
    if !reply.Refused? { return; }
    var transient := reply.error == ConnectionLost && first.transient;
    if !transient && reply.error == Stale { return; }
    shard.Meanwhile(between);
    TokensStay(shard.steps, |was|, token) by { assert shard.steps[..|was|] == was; }
    if transient {
      reply := shard.RetryOrFail(token, limits.maxAttempts, DependencyUnavailable, limits.delay,
        second.wait1, second.wait2, second.fate);
    } else {
      reply := shard.FailBatch(token, TransitionRejected, second.wait1, second.wait2, second.fate);
    }
    AtMostOne(shard.steps, |was|);
    OwnMoves(shard.steps, |was|);
  }

  lemma {:induction false} OneCallOnly(steps: seq<Step>, was: seq<Step>)
    requires |steps| == |was| + 1 && steps[..|was|] == was
    requires steps[|was|].call.FailBatch? || steps[|was|].call.RetryOrFail?
    ensures OneEffect(steps, |was|) && OnlyApplyingMoves(steps, |was|)
    ensures Run(steps).db.cards == Run(was).db.cards
  {
    hide Run, CommitsAt;
    OwnMoves(steps, |was|);
    assert steps[..|steps|] == steps;
  }

  lemma {:induction false} AtMostOne(steps: seq<Step>, from: nat)
    requires from < |steps| - 1 && LeasedBatchCall(steps[from].call) && LeasedBatchCall(steps[|steps|-1].call)
    requires steps[from].call.batchToken == steps[|steps|-1].call.batchToken
    ensures OneEffect(steps, from)
  {
    hide CommitsAt;
    if CommitsAt(steps, from) { TokensAreSpentOnce(steps, from, |steps| - 1); }
  }

  // The goroutine of a batch: whichever way its work returns, its deferred release runs once.
  method BatchWorker(service: S.Service, bank: S.Bank, shard: Shard, token: BatchToken, limits: Limits,
      authorization: Authorization, first: Weather, between: seq<Step>, second: Weather)
    requires service.Valid() && bank in service.workers && shard.Valid() && token in shard.batchTokens
    modifies shard, service
    ensures service.Valid() && service.Now() == S.Act(service.limits, old(service.Now()), S.End(bank))
    ensures shard.Valid() && OneEffect(shard.steps, |old(shard.steps)|)
  {
    hide Run, Body, CommitsAt;
    RunBatch(shard, token, limits, authorization, first, between, second);
    service.Release(bank, true);
  }

  // ----- expiry -----

  const FAILED_ITEM_DELAY: nat := 1_000_000    // FailExpiryItem requeues after one second

  lemma {:induction false} ItemTokensStay(steps: seq<Step>, from: nat, token: ExpiryToken)
    requires from <= |steps| && token in Run(steps[..from]).expiryTokens
    ensures token in Run(steps).expiryTokens
  {
    RunsGoForward(steps, from, |steps|);
    assert steps[..|steps|] == steps;
  }

  // An expiry worker applies, and requeues only after a failed application: with the configured delay
  // after a transient error, after one second after any other, and not at all when the claim is stale.
  method RunExpiry(shard: Shard, token: ExpiryToken, delay: nat, first: Weather, between: seq<Step>, second: Weather)
    requires shard.Valid() && token in shard.expiryTokens
    modifies shard
    ensures shard.Valid()
    ensures var was := old(shard.steps);
      var one := StepOf(ApplyExpiryItem(token), first);
      var reply := Answer(Run(was), one);
      if !reply.Refused? || reply.error == Stale then shard.steps == was + [one]
      else if reply.error == ConnectionLost && first.transient then
        shard.steps == was + [one] + between + [StepOf(RequeueExpiryItem(token, delay), second)]
      else
        shard.steps == was + [one] + between + [StepOf(RequeueExpiryItem(token, 1_000_000), second)]
    ensures OneEffect(shard.steps, |old(shard.steps)|)
    ensures |shard.steps| > |old(shard.steps)| + 1 ==>
      shard.Now().db.cards == At(shard.steps, |shard.steps| - 1).db.cards
  {
    hide Run, Body, CommitsAt;
    ghost var was := shard.steps;
    var reply := shard.ApplyExpiryItem(token, first.wait1, first.wait2, first.fate);
    if !reply.Refused? { return; }
    var transient := reply.error == ConnectionLost && first.transient;
    if !transient && reply.error == Stale { return; }
    shard.Meanwhile(between);
    ItemTokensStay(shard.steps, |was|, token) by { assert shard.steps[..|was|] == was; }
    var pause := if transient then delay else FAILED_ITEM_DELAY;
    reply := shard.RequeueExpiryItem(token, pause, second.wait1, second.wait2, second.fate);
    AtMostOneOfItem(shard.steps, |was|);
    RequeuesMoveNoCard(shard.steps);
  }

  lemma {:induction false} RequeuesMoveNoCard(steps: seq<Step>)
    requires steps != [] && steps[|steps|-1].call.RequeueExpiryItem?
    ensures Run(steps).db.cards == At(steps, |steps| - 1).db.cards
  {
    hide Run, RequeueExpiryItemTx;
    var k := |steps| - 1;
    var w, s := At(steps, k), steps[k];
    assert steps[..k+1] == steps;
    CommittedStep(steps, k);
    RequeueingIsAFailedAttempt(w.db, s.call.expiryToken, s.call.delay, w.clock + s.wait1);
  }

  lemma {:induction false} AtMostOneOfItem(steps: seq<Step>, from: nat)
    requires from < |steps| - 1 && LeasedExpiryCall(steps[from].call) && LeasedExpiryCall(steps[|steps|-1].call)
    requires steps[from].call.expiryToken == steps[|steps|-1].call.expiryToken
    ensures OneEffect(steps, from)
  {
    hide CommitsAt;
    if CommitsAt(steps, from) { ItemTokensAreSpentOnce(steps, from, |steps| - 1); }
  }

  method ExpiryWorker(service: S.Service, bank: S.Bank, shard: Shard, token: ExpiryToken, delay: nat,
      first: Weather, between: seq<Step>, second: Weather)
    requires service.Valid() && bank in service.workers && shard.Valid() && token in shard.expiryTokens
    modifies shard, service
    ensures service.Valid() && service.Now() == S.Act(service.limits, old(service.Now()), S.End(bank))
    ensures shard.Valid() && OneEffect(shard.steps, |old(shard.steps)|)
  {
    hide Run, Body, CommitsAt;
    RunExpiry(shard, token, delay, first, between, second);
    service.Release(bank, true);
  }
}
