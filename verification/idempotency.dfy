// Exactly-once requests: internal/repository/shard/transaction.go and the workflows of
// internal/card/service.go and internal/batch/service.go that claim, act, finish and commit in one
// shard transaction.
module Idempotency {
  import opened Wrappers
  import opened Tables
  import E = Executions

  const LIFETIME: nat := 604_800_000_000    // replayLifetime, seven days in microseconds

  type Fingerprint = string
  datatype Key = Key(scope: string, key: string)

  // response_status is read as nullable.
  datatype Record = Record(fingerprint: Fingerprint, status: Option<nat>, response: string, expiresAt: int)
  datatype Claim = Claim(key: Key, fingerprint: Fingerprint, now: int)

  datatype Claimed = Conflict | StatusMissing | Replay(status: nat, response: string) | Fresh
  datatype ClaimResult = ClaimResult(records: map<Key, Record>, claimed: Claimed)

  function Placeholder(c: Claim): Record {
    Record(c.fingerprint, Some(202), "{\"status\":\"processing\"}", c.now + LIFETIME)
  }

  // A claim, as one step on the records.
  function ClaimOn(records: map<Key, Record>, c: Claim): ClaimResult {
    if c.key in records && c.now < records[c.key].expiresAt then
      var r := records[c.key];
      ClaimResult(records,
        if r.fingerprint != c.fingerprint then Conflict
        else if r.status.None? then StatusMissing
        else Replay(r.status.value, r.response))
    else ClaimResult(records[c.key := Placeholder(c)], Fresh)
  }

  function FinishOn(records: map<Key, Record>, key: Key, status: nat, response: string): map<Key, Record> {
    if key in records then records[key := records[key].(status := Some(status), response := response)] else records
  }

  // ----- the workflow as one transaction -----

  // A committed transaction, in the order of commits. A request's has its key and what its record
  // keeps; those of the executors have no key.
  datatype Effect = Effect(key: Option<Key>, fingerprint: Fingerprint, status: nat, response: string, at: int,
      call: E.Call, now1: Time, now2: Time)

  datatype Desk = Desk(db: Db, records: map<Key, Record>, effects: seq<Effect>)

  datatype Request = Request(claim: Claim, call: E.Call, now1: Time, now2: Time, status: nat, response: string)
  datatype Answer = Problem(error: Error) | IdempotencyConflict | InternalError | Lost | Result(status: nat,
      response: string)
  datatype Outcome = RolledBack(answer: Answer) | Written(desk: Desk, answer: Answer)

  function EffectOf(r: Request): Effect {
    Effect(Some(r.claim.key), r.claim.fingerprint, r.status, r.response, r.claim.now, r.call, r.now1, r.now2)
  }

  function Workflow(desk: Desk, r: Request): Outcome {
    var claim := ClaimOn(desk.records, r.claim);
    match claim.claimed
    case Conflict => RolledBack(IdempotencyConflict)
    case StatusMissing => RolledBack(InternalError)
    case Replay(status, response) => RolledBack(Result(status, response))
    case Fresh =>
      var tx := E.Body(desk.db, r.call, r.now1, r.now2);
      if tx.Rollback? then RolledBack(Problem(tx.error))
      else Written(Desk(tx.db, FinishOn(claim.records, r.claim.key, r.status, r.response),
          desk.effects + [EffectOf(r)]),
                  Result(r.status, r.response))
  }

  // The executors' transactions on the same tables, which carry no key.
  function Unkeyed(call: E.Call, now1: Time, now2: Time): Effect {
    Effect(None, "", 0, "", 0, call, now1, now2)
  }

  function BackgroundOn(desk: Desk, call: E.Call, now1: Time, now2: Time): Outcome {
    var tx := E.Body(desk.db, call, now1, now2);
    if tx.Rollback? then RolledBack(Problem(tx.error))
    else Written(desk.(db := tx.db, effects := desk.effects + [Unkeyed(call, now1, now2)]), Result(200, ""))
  }

  datatype Step = Submitted(request: Request, fate: Fate) | Background(call: E.Call, now1: Time, now2: Time, fate: Fate)

  function OutcomeOf(desk: Desk, s: Step): Outcome {
    match s
    case Submitted(request, _) => Workflow(desk, request)
    case Background(call, now1, now2, _) => BackgroundOn(desk, call, now1, now2)
  }

  function EffectIn(s: Step): Effect {
    if s.Submitted? then EffectOf(s.request) else Unkeyed(s.call, s.now1, s.now2)
  }

  predicate Performs(desk: Desk, s: Step) {
    s.fate != Aborted && OutcomeOf(desk, s).Written?
  }

  function Next(desk: Desk, s: Step): Desk {
    if Performs(desk, s) then OutcomeOf(desk, s).desk else desk
  }

  function Replied(desk: Desk, s: Step): Answer {
    var o := OutcomeOf(desk, s);
    if s.fate == Aborted || (o.Written? && s.fate == AcknowledgementLost) then Lost else o.answer
  }

  const EMPTY: Desk := Desk(EMPTY_DB, map[], [])

  function Run(steps: seq<Step>): Desk {
    if steps == [] then EMPTY else Next(Run(steps[..|steps|-1]), steps[|steps|-1])
  }

  function At(steps: seq<Step>, k: nat): Desk
    requires k <= |steps|
  {
    Run(steps[..k])
  }

  lemma {:induction false} OneStep(steps: seq<Step>, k: nat)
    requires k < |steps|
    ensures At(steps, k + 1) == Next(At(steps, k), steps[k])
  {
    assert steps[..k+1][..k] == steps[..k];
  }

  class Workflows {
    var db: Db
    var records: map<Key, Record>
    ghost var effects: seq<Effect>
    ghost var steps: seq<Step>

    ghost predicate Valid()
      reads this
    {
      Desk(db, records, effects) == Run(steps)
    }

    constructor ()
      ensures Valid() && steps == []
    {
      db, records, effects, steps := EMPTY_DB, map[], [], [];
    }

    // The load closure: the row of the key, replayed, refused or overwritten; None when there is no row.
    method Load(rows: map<Key, Record>, c: Claim) returns (found: Option<Claimed>, rows': map<Key, Record>)
      ensures c.key !in rows ==> found.None? && rows' == rows
      ensures c.key in rows ==> found.Some? && ClaimResult(rows', found.value) == ClaimOn(rows, c)
    {
      rows' := rows;
      if c.key !in rows { return None, rows'; }
      var r := rows[c.key];
      if c.now < r.expiresAt {
        if r.fingerprint != c.fingerprint { return Some(Conflict), rows'; }
        if r.status.None? { return Some(StatusMissing), rows'; }
        return Some(Replay(r.status.value, r.response)), rows';
      }
      rows' := rows[c.key := Placeholder(c)];
      found := Some(Fresh);
    }

    // ClaimIdempotency reads twice. Between its first load and its insert other transactions may
    // commit, and the insert then meets their row; a row it has loaded is locked. Either way it is
    // one atomic claim on the records it ends up facing.
    method ClaimIdempotency(loaded: map<Key, Record>, committed: map<Key, Record>, c: Claim) returns (r: ClaimResult)
      requires c.key in loaded ==> c.key in committed && committed[c.key] == loaded[c.key]
      ensures r == ClaimOn(committed, c)
    {
      var found, rows := Load(loaded, c);
      if found.Some? {
        if found == Some(Fresh) { return ClaimResult(committed[c.key := rows[c.key]], Fresh); }
        return ClaimResult(committed, found.value);
      }
      if c.key !in committed { return ClaimResult(committed[c.key := Placeholder(c)], Fresh); }
      found, rows := Load(committed, c);
      r := ClaimResult(rows, found.value);
    }

    // `loaded` is what the claim's first read saw; the request is serialised where its row is locked.
    method Submit(request: Request, loaded: map<Key, Record>, fate: Fate) returns (answer: Answer)
      requires Valid()
      requires request.claim.key in loaded ==>
        request.claim.key in records && records[request.claim.key] == loaded[request.claim.key]
      modifies this
      ensures Valid() && steps == old(steps) + [Submitted(request, fate)]
      ensures answer == Replied(Run(old(steps)), Submitted(request, fate))
    {
      hide E.Body;
      var claim := ClaimIdempotency(loaded, records, request.claim);
      var db', records' := db, records;
      var commit := false;
      match claim.claimed {
        case Conflict => answer := IdempotencyConflict;
        case StatusMissing => answer := InternalError;
        case Replay(status, response) => answer := Result(status, response);
        case Fresh =>
          var tx := E.Body(db, request.call, request.now1, request.now2);
          if tx.Rollback? {
            answer := Problem(tx.error);
          } else {
            db' := tx.db;
            records' := FinishOn(claim.records, request.claim.key, request.status, request.response);
            commit, answer := true, Result(request.status, request.response);
          }
      }
      if fate.Aborted? {
        answer := Lost;
      } else if commit {
        db, records, effects := db', records', effects + [EffectOf(request)];
        if fate.AcknowledgementLost? { answer := Lost; }
      }
      assert (steps + [Submitted(request, fate)])[..|steps|] == steps;
      steps := steps + [Submitted(request, fate)];
    }

    // An executor's transaction commits on the same tables.
    method RunInBackground(call: E.Call, now1: Time, now2: Time, fate: Fate)
      requires Valid()
      modifies this
      ensures Valid() && steps == old(steps) + [Background(call, now1, now2, fate)]
    {
      hide E.Body;
      var tx := E.Body(db, call, now1, now2);
      if tx.Commit? && fate != Aborted { db, effects := tx.db, effects + [Unkeyed(call, now1, now2)]; }
      assert (steps + [Background(call, now1, now2, fate)])[..|steps|] == steps;
      steps := steps + [Background(call, now1, now2, fate)];
    }
  }

  // A request that was serialised as a step of its key.
  predicate Submits(steps: seq<Step>, i: nat, key: Key) {
    i < |steps| && steps[i].Submitted? && steps[i].request.claim.key == key
  }

  predicate PerformedBy(steps: seq<Step>, i: nat, key: Key) {
    Submits(steps, i, key) && Performs(At(steps, i), steps[i])
  }

  // ----- the records are the latest effects -----

  function Latest(effects: seq<Effect>, key: Key): Option<Effect> {
    if effects == [] then None
    else if effects[|effects|-1].key == Some(key) then Some(effects[|effects|-1])
    else Latest(effects[..|effects|-1], key)
  }

  function RecordOf(e: Effect): Record {
    Record(e.fingerprint, Some(e.status), e.response, e.at + LIFETIME)
  }

  // Every record is the finished record of its key's latest effect; no other record is ever seen.
  ghost predicate RecordsOk(desk: Desk) {
    forall key :: (key in desk.records <==> Latest(desk.effects, key).Some?) &&
      (key in desk.records ==> desk.records[key] == RecordOf(Latest(desk.effects, key).value))
  }

  // Effects of one key are at least a lifetime apart, counted on the clock readings of their claims.
  predicate Apart(effects: seq<Effect>) {
    forall i, j :: 0 <= i < j < |effects| && effects[i].key.Some? && effects[i].key == effects[j].key ==>
      effects[i].at + LIFETIME <= effects[j].at
  }

  // The tables are what the effects made of them, in order.
  function Replayed(effects: seq<Effect>): Option<Db> {
    if effects == [] then Some(EMPTY_DB)
    else
      var n := |effects| - 1;
      var before := Replayed(effects[..n]);
      if before.None? then None
      else
        var tx := E.Body(before.value, effects[n].call, effects[n].now1, effects[n].now2);
        if tx.Commit? then Some(tx.db) else None
  }

  ghost predicate DeskOk(desk: Desk) {
    RecordsOk(desk) && Apart(desk.effects) && Replayed(desk.effects) == Some(desk.db)
  }

  lemma {:induction false} LatestIsLast(effects: seq<Effect>, key: Key, i: nat)
    requires Apart(effects) && i < |effects| && effects[i].key == Some(key)
    ensures Latest(effects, key).Some? && effects[i].at <= Latest(effects, key).value.at
  {
    var n := |effects| - 1;
    if effects[n].key == Some(key) {
      if i < n { assert effects[i].at + LIFETIME <= effects[n].at; }
    } else {
      LatestIsLast(effects[..n], key, i);
    }
  }

  lemma {:induction false} AppendEffect(effects: seq<Effect>, e: Effect)
    ensures forall key :: Latest(effects + [e], key) == (if e.key == Some(key) then Some(e) else Latest(effects, key))
    ensures Replayed(effects + [e]) == (if Replayed(effects).None? then None else
      var tx := E.Body(Replayed(effects).value, e.call, e.now1, e.now2); if tx.Commit? then Some(tx.db) else None)
  {
    assert (effects + [e])[..|effects|] == effects;
  }

  lemma {:induction false} PerformingKeepsDesk(desk: Desk, s: Step)
    requires DeskOk(desk) && Performs(desk, s)
    ensures DeskOk(Next(desk, s))
  {
    hide E.Body;
    var e := EffectIn(s);
    AppendEffect(desk.effects, e);
    var more := desk.effects + [e];
    forall i, j | 0 <= i < j < |more| && more[i].key.Some? && more[i].key == more[j].key
      ensures more[i].at + LIFETIME <= more[j].at
    {
      if j == |desk.effects| { LatestIsLast(desk.effects, e.key.value, i); }
    }
  }

  lemma {:induction false} EveryRunIsOk(steps: seq<Step>)
    ensures DeskOk(Run(steps))
  {
    if steps != [] {
      EveryRunIsOk(steps[..|steps|-1]);
      var desk, s := Run(steps[..|steps|-1]), steps[|steps|-1];
      hide DeskOk, Performs, OutcomeOf;
      if Performs(desk, s) { PerformingKeepsDesk(desk, s); }
    }
  }

  // ----- what callers get -----

  // A request performs exactly when its key has no record that is still alive and its transaction
  // commits: then the tables are the transaction's and the record is the finished one, alive for seven
  // days. Otherwise nothing changes, and the answer is the stored one, a conflict, or the problem met.
  lemma {:induction false} RequestsPerformExactlyWhen(desk: Desk, r: Request, fate: Fate)
    ensures var s := Submitted(r, fate); var c := r.claim;
      var alive := c.key in desk.records && c.now < desk.records[c.key].expiresAt;
      var tx := E.Body(desk.db, r.call, r.now1, r.now2);
      var answer :=
        if !alive then (if tx.Commit? then Result(r.status, r.response) else Problem(tx.error))
        else if desk.records[c.key].fingerprint != c.fingerprint then IdempotencyConflict
        else if desk.records[c.key].status.None? then InternalError
        else Result(desk.records[c.key].status.value, desk.records[c.key].response);
      (Performs(desk, s) <==> fate != Aborted && !alive && tx.Commit?) &&
      (Performs(desk, s) ==>
        Next(desk, s) == Desk(tx.db,
          desk.records[c.key := Record(c.fingerprint, Some(r.status), r.response, c.now + 604_800_000_000)],
          desk.effects + [EffectOf(r)])) &&
      (!Performs(desk, s) ==> Next(desk, s) == desk) &&
      (fate == Acknowledged ==> Replied(desk, s) == answer)
  {
    hide E.Body;
  }

  // Per key, the effect commits at most once until the record's expiry; the tables hold exactly
  // the effects that committed.
  lemma {:induction false} EffectsAreExactlyOnce(steps: seq<Step>)
    ensures var desk := Run(steps);
      Apart(desk.effects) && Replayed(desk.effects) == Some(desk.db)
  {
    EveryRunIsOk(steps);
  }

  lemma {:induction false} EffectsOnlyGrow(steps: seq<Step>, i: nat, j: nat)
    requires i <= j <= |steps|
    ensures At(steps, i).effects <= At(steps, j).effects
  {
    if i < j {
      EffectsOnlyGrow(steps, i, j - 1);
      OneStep(steps, j - 1);
      hide E.Body, Run;
    }
  }

  lemma {:induction false} PerformedEffect(steps: seq<Step>, i: nat)
    requires i < |steps| && Performs(At(steps, i), steps[i])
    ensures At(steps, i + 1).effects == At(steps, i).effects + [EffectIn(steps[i])]
  {
    hide E.Body, Run;
    OneStep(steps, i);
  }

  // A second request under the same key performs only once the first one's record has expired.
  lemma {:induction false} AtMostOncePerLifetime(steps: seq<Step>, i: nat, j: nat, key: Key)
    requires i < j && PerformedBy(steps, i, key) && PerformedBy(steps, j, key)
    ensures steps[i].request.claim.now + LIFETIME <= steps[j].request.claim.now
  {
    hide Run, Performs;
    PerformedEffect(steps, i);
    PerformedEffect(steps, j);
    EffectsOnlyGrow(steps, i + 1, j);
    EveryRunIsOk(steps[..j+1]);
    var effects, a, b := At(steps, j + 1).effects, |At(steps, i).effects|, |At(steps, j).effects|;
    assert effects[b] == EffectOf(steps[j].request);
    assert effects[a] == At(steps, j).effects[a] == At(steps, i + 1).effects[a] == EffectOf(steps[i].request);
  }

  // An effect stays its key's latest while its record lives.
  lemma {:induction false} StaysLatest(steps: seq<Step>, i: nat, j: nat, key: Key)
    requires i < j <= |steps| && PerformedBy(steps, i, key)
    requires forall k :: i < k < j && Submits(steps, k, key) ==>
      steps[k].request.claim.now < steps[i].request.claim.now + LIFETIME
    ensures Latest(At(steps, j).effects, key) == Some(EffectOf(steps[i].request))
  {
    hide Run, E.Body, Performs;
    if j == i + 1 {
      PerformedEffect(steps, i);
      AppendEffect(At(steps, i).effects, EffectOf(steps[i].request));
    } else {
      StaysLatest(steps, i, j - 1, key);
      OneStep(steps, j - 1);
      if Performs(At(steps, j - 1), steps[j-1]) {
        PerformedEffect(steps, j - 1);
        AppendEffect(At(steps, j - 1).effects, EffectIn(steps[j-1]));
        if Submits(steps, j - 1, key) { AtMostOncePerLifetime(steps, i, j - 1, key); }
      }
    }
  }

  // Until it expires, a record answers every later claim of its key: the same request gets the
  // stored response and status, a different one a conflict, and neither changes anything. Claims read
  // their clocks before the row is locked, so readings need not follow the order of the commits; all
  // that matters is that no claim of this key in between already took the record for expired.
  lemma {:induction false} LaterClaimsReplay(steps: seq<Step>, i: nat, j: nat, key: Key)
    requires i < j && PerformedBy(steps, i, key) && Submits(steps, j, key)
    requires forall k :: i < k <= j && Submits(steps, k, key) ==>
      steps[k].request.claim.now < steps[i].request.claim.now + LIFETIME
    ensures At(steps, j + 1) == At(steps, j)
    ensures steps[j].fate != Aborted ==>
      Replied(At(steps, j), steps[j]) ==
        if steps[j].request.claim.fingerprint == steps[i].request.claim.fingerprint
        then Result(steps[i].request.status, steps[i].request.response) else IdempotencyConflict
  {
    hide Run, E.Body;
    StaysLatest(steps, i, j, key);
    EveryRunIsOk(steps[..j]);
    OneStep(steps, j);
    assert At(steps, j).records[key] == RecordOf(EffectOf(steps[i].request));
  }

  // However many attempts of a key were refused or lost before their commit, they leave no record:
  // until one performs the key is free, and the next request acts as the first.
  lemma {:induction false} FailuresLeaveTheKeyFree(steps: seq<Step>, key: Key)
    requires forall k :: 0 <= k < |steps| ==> !PerformedBy(steps, k, key)
    ensures key !in Run(steps).records
  {
    EveryRunIsOk(steps);
    hide Run, Performs, E.Body, DeskOk;
    NoEffectWithoutPerforming(steps, key);
  }

  lemma {:induction false} NoEffectWithoutPerforming(steps: seq<Step>, key: Key)
    requires forall k :: 0 <= k < |steps| ==> !PerformedBy(steps, k, key)
    ensures Latest(Run(steps).effects, key) == None
    ensures DeskOk(Run(steps)) ==> key !in Run(steps).records
  {
    hide Performs, E.Body, OutcomeOf;
    if steps != [] {
      var n := |steps| - 1;
      forall k | 0 <= k < n ensures !PerformedBy(steps[..n], k, key) {
        assert steps[..n][..k] == steps[..k];
        assert !PerformedBy(steps, k, key);
      }
      NoEffectWithoutPerforming(steps[..n], key);
      assert !PerformedBy(steps, n, key);
      if Performs(Run(steps[..n]), steps[n]) {
        assert At(steps, n) == Run(steps[..n]) && steps[..n+1] == steps;
        PerformedEffect(steps, n);
        AppendEffect(At(steps, n).effects, EffectIn(steps[n]));
      }
    }
  }

  // The placeholder of a claim is never what another request finds.
  lemma {:induction false} RecordsAreFinished(steps: seq<Step>, key: Key)
    requires key in Run(steps).records
    ensures exists e :: e in Run(steps).effects && e.key == Some(key) && Run(steps).records[key] == RecordOf(e)
  {
    EveryRunIsOk(steps);
    LatestIsAnEffect(Run(steps).effects, key);
  }

  lemma {:induction false} LatestIsAnEffect(effects: seq<Effect>, key: Key)
    requires Latest(effects, key).Some?
    ensures Latest(effects, key).value in effects && Latest(effects, key).value.key == Some(key)
  {
    var n := |effects| - 1;
    if effects[n].key != Some(key) { LatestIsAnEffect(effects[..n], key); }
  }
}
