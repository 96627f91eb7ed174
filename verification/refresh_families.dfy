// internal/auth/service.go over the guarded updates of internal/repository/auth/store.go: login,
// refresh-token rotation with replay revocation, logout and password change.
module RefreshFamilies {
  import opened Wrappers
  import opened RowOrder

  const LIFETIME: nat := 604_800_000_000    // seven days, in microseconds

  datatype User = User(enabled: bool, authVersion: nat)
  datatype Session = Session(user: Id, authVersion: nat, expiresAt: int, revoked: bool)
  datatype RefreshToken = RefreshToken(session: Id, parent: Option<Id>, expiresAt: int, consumed: bool)

  // control.users, control.auth_sessions and control.refresh_tokens.
  datatype Tables = Tables(users: map<Id, User>, sessions: map<Id, Session>, tokens: map<Id, RefreshToken>)
  const EMPTY: Tables := Tables(map[], map[], map[])

  datatype Reply = InvalidCredentials | InvalidRefresh | InvalidPassword | WeakPassword | NotFound | UniqueViolation
                 | ConnectionLost | Done | Issued(token: Id, expiresAt: int)

  datatype Tx = Rollback(reply: Reply) | Commit(tables: Tables, reply: Reply)
  datatype Fate = Acknowledged | AcknowledgementLost | Aborted

  function LoginTx(t: Tables, user: Id, passwordValid: bool, session: Id, token: Id, now: int): Tx {
    if user !in t.users || !t.users[user].enabled || !passwordValid then Commit(t, InvalidCredentials)
    else if session in t.sessions || token in t.tokens then Rollback(UniqueViolation)
    else
      var expiresAt := now + LIFETIME;
      Commit(t.(sessions := t.sessions[session := Session(user, t.users[user].authVersion, expiresAt, false)],
                tokens := t.tokens[token := RefreshToken(session, None, expiresAt, false)]), Issued(token, expiresAt))
  }

  function Revoke(t: Tables, session: Id): Tables
    requires session in t.sessions
  {
    t.(sessions := t.sessions[session := t.sessions[session].(revoked := true)])
  }

  predicate Resolves(t: Tables, token: Id) {
    token in t.tokens && t.tokens[token].session in t.sessions && t.sessions[t.tokens[token].session].user in t.users
  }

  predicate Usable(t: Tables, token: Id, now: int)
    requires Resolves(t, token)
  {
    var k := t.tokens[token];
    var s := t.sessions[k.session];
    var u := t.users[s.user];
    !k.consumed && !s.revoked && u.enabled && u.authVersion == s.authVersion && now < s.expiresAt && now < k.expiresAt
  }

  function Rotated(t: Tables, token: Id, successor: Id): Tables
    requires Resolves(t, token)
  {
    var k := t.tokens[token];
    t.(tokens := t.tokens[token := k.(consumed := true)]
                 [successor := RefreshToken(k.session, Some(token), t.sessions[k.session].expiresAt, false)])
  }

  function RefreshTx(t: Tables, token: Id, successor: Id, now: int): Tx {
    if token !in t.tokens then Commit(t, InvalidRefresh)
    else if !Resolves(t, token) then Rollback(NotFound)
    else if !Usable(t, token, now) then
      var session := t.tokens[token].session;
      Commit(if t.tokens[token].consumed && !t.sessions[session].revoked then Revoke(t, session) else t, InvalidRefresh)
    else if successor in t.tokens then Rollback(UniqueViolation)
    else Commit(Rotated(t, token, successor), Issued(successor, t.sessions[t.tokens[token].session].expiresAt))
  }

  function LogoutTx(t: Tables, token: Id): Tx {
    if token !in t.tokens then Commit(t, Done)
    else if !Resolves(t, token) then Rollback(NotFound)
    else Commit(Revoke(t, t.tokens[token].session), Done)
  }

  // A changed user row advances its auth_version: the guard_user trigger. A new hash always differs
  // from the old one, because it is salted.
  function Changed(t: Tables, user: Id, enabled: bool): Tables
    requires user in t.users
  {
    t.(users := t.users[user := User(enabled, t.users[user].authVersion + 1)])
  }

  function ChangePasswordTx(t: Tables, user: Id, acceptable: bool, currentValid: bool): Tx {
    if !acceptable then Rollback(WeakPassword)
    else if user !in t.users || !t.users[user].enabled || !currentValid then Commit(t, InvalidPassword)
    else Commit(Changed(t, user, true), Done)
  }

  // Provisioning, and the staff workflows that disable, enable, reassign or reset a user.
  function ProvisionTx(t: Tables, user: Id): Tx {
    if user in t.users then Rollback(UniqueViolation) else Commit(t.(users := t.users[user := User(true, 1)]), Done)
  }

  function StaffChangeTx(t: Tables, user: Id, enabled: bool): Tx {
    if user !in t.users then Rollback(NotFound) else Commit(Changed(t, user, enabled), Done)
  }

  datatype Call =
    | Login(user: Id, passwordValid: bool, session: Id, token: Id)
    | Refresh(token: Id, successor: Id)
    | Logout(token: Id)
    | ChangePassword(user: Id, acceptable: bool, currentValid: bool)
    | Provision(user: Id)
    | StaffChange(user: Id, enabled: bool)

  function Body(t: Tables, call: Call, now: int): Tx {
    match call
    case Login(user, valid, session, token) => LoginTx(t, user, valid, session, token, now)
    case Refresh(token, successor) => RefreshTx(t, token, successor, now)
    case Logout(token) => LogoutTx(t, token)
    case ChangePassword(user, acceptable, valid) => ChangePasswordTx(t, user, acceptable, valid)
    case Provision(user) => ProvisionTx(t, user)
    case StaffChange(user, enabled) => StaffChangeTx(t, user, enabled)
  }

  datatype Step = Step(call: Call, now: int, fate: Fate)

  predicate Committed(t: Tables, s: Step) {
    s.fate != Aborted && Body(t, s.call, s.now).Commit?
  }

  function Next(t: Tables, s: Step): Tables {
    if Committed(t, s) then Body(t, s.call, s.now).tables else t
  }

  function Answer(t: Tables, s: Step): Reply {
    var tx := Body(t, s.call, s.now);
    if s.fate == Aborted then ConnectionLost
    else if tx.Commit? && s.fate == AcknowledgementLost then ConnectionLost else tx.reply
  }

  function Run(steps: seq<Step>): Tables {
    if steps == [] then EMPTY else Next(Run(steps[..|steps|-1]), steps[|steps|-1])
  }

  function At(steps: seq<Step>, k: nat): Tables
    requires k <= |steps|
  {
    Run(steps[..k])
  }

  lemma {:induction false} OneStep(steps: seq<Step>, k: nat)
    requires k < |steps|
    ensures At(steps, k + 1) == Next(At(steps, k), steps[k])
  {
    assert steps[..k+1][..k] == steps[..k];
  }

  class AuthStore {
    var users: map<Id, User>
    var sessions: map<Id, Session>
    var tokens: map<Id, RefreshToken>
    ghost var steps: seq<Step>

    ghost predicate Valid()
      reads this
    {
      Tables(users, sessions, tokens) == Run(steps)
    }

    twostate predicate Performed(s: Step, reply: Reply)
      reads this
    {
      Valid() && steps == old(steps) + [s] && reply == Answer(Run(old(steps)), s)
    }

    constructor ()
      ensures Valid() && steps == []
    {
      users, sessions, tokens, steps := map[], map[], map[], [];
    }

    method Finish(call: Call, now: int, fate: Fate, outcome: Tx) returns (reply: Reply)
      requires Valid() && outcome == Body(Tables(users, sessions, tokens), call, now)
      modifies this
      ensures Performed(Step(call, now, fate), reply)
    {
      hide Body;
      if fate.Aborted? {
        reply := ConnectionLost;
      } else if outcome.Rollback? {
        reply := outcome.reply;
      } else {
        users, sessions, tokens := outcome.tables.users, outcome.tables.sessions, outcome.tables.tokens;
        reply := if fate.Acknowledged? then outcome.reply else ConnectionLost;
      }
      assert (steps + [Step(call, now, fate)])[..|steps|] == steps;
      steps := steps + [Step(call, now, fate)];
    }

    method Login(user: Id, passwordValid: bool, session: Id, token: Id, now: int, fate: Fate) returns (reply: Reply)
      requires Valid()
      modifies this
      ensures Performed(Step(Call.Login(user, passwordValid, session, token), now, fate), reply)
    {
      var tx := Tables(users, sessions, tokens);
      var outcome := Commit(tx, InvalidCredentials);
      if user in tx.users && tx.users[user].enabled && passwordValid {
        if session in tx.sessions {
          outcome := Rollback(UniqueViolation);
        } else {
          tx := tx.(sessions := tx.sessions[session := Session(user, tx.users[user].authVersion, now + LIFETIME,
              false)]);
          if token in tx.tokens {
            outcome := Rollback(UniqueViolation);
          } else {
            tx := tx.(tokens := tx.tokens[token := RefreshToken(session, None, now + LIFETIME, false)]);
            outcome := Commit(tx, Issued(token, now + LIFETIME));
          }
        }
      }
      reply := Finish(Call.Login(user, passwordValid, session, token), now, fate, outcome);
    }

    method Refresh(token: Id, successor: Id, now: int, fate: Fate) returns (reply: Reply)
      requires Valid()
      modifies this
      ensures Performed(Step(Call.Refresh(token, successor), now, fate), reply)
    {
      var outcome := Rotate(token, successor, now);
      reply := Finish(Call.Refresh(token, successor), now, fate, outcome);
    }

    method Rotate(token: Id, successor: Id, now: int) returns (outcome: Tx)
      ensures outcome == RefreshTx(Tables(users, sessions, tokens), token, successor, now)
    {
      var tx := Tables(users, sessions, tokens);
      if token !in tx.tokens { return Commit(tx, InvalidRefresh); }
      var k := tx.tokens[token];
      if k.session !in tx.sessions { return Rollback(NotFound); }
      var s := tx.sessions[k.session];
      if s.user !in tx.users { return Rollback(NotFound); }
      var u := tx.users[s.user];
      if k.consumed || s.revoked || !u.enabled || u.authVersion != s.authVersion || now >= s.expiresAt ||
          now >= k.expiresAt {
        if k.consumed && !s.revoked {
          tx := tx.(sessions := tx.sessions[k.session := s.(revoked := true)]);
        }
        return Commit(tx, InvalidRefresh);
      }
      tx := tx.(tokens := tx.tokens[token := k.(consumed := true)]);
      if successor in tx.tokens { return Rollback(UniqueViolation); }
      tx := tx.(tokens := tx.tokens[successor := RefreshToken(k.session, Some(token), s.expiresAt, false)]);
      outcome := Commit(tx, Issued(successor, s.expiresAt));
    }

    method Logout(token: Id, now: int, fate: Fate) returns (reply: Reply)
      requires Valid()
      modifies this
      ensures Performed(Step(Call.Logout(token), now, fate), reply)
    {
      var tx := Tables(users, sessions, tokens);
      var outcome := Commit(tx, Done);
      if token in tx.tokens {
        var session := tx.tokens[token].session;
        if session !in tx.sessions || tx.sessions[session].user !in tx.users {
          outcome := Rollback(NotFound);
        } else {
          if !tx.sessions[session].revoked {
            tx := tx.(sessions := tx.sessions[session := tx.sessions[session].(revoked := true)]);
          }
          outcome := Commit(tx, Done);
        }
      }
      assert outcome == LogoutTx(Tables(users, sessions, tokens), token) by {
        if outcome.Commit? { assert outcome.tables.sessions == LogoutTx(Tables(users, sessions, tokens),
            token).tables.sessions; }
      }
      reply := Finish(Call.Logout(token), now, fate, outcome);
    }

    method ChangePassword(user: Id, acceptable: bool, currentValid: bool, now: int, fate: Fate) returns (reply: Reply)
      requires Valid()
      modifies this
      ensures Performed(Step(Call.ChangePassword(user, acceptable, currentValid), now, fate), reply)
    {
      var tx := Tables(users, sessions, tokens);
      var outcome := Rollback(WeakPassword);
      if acceptable {
        outcome := Commit(tx, InvalidPassword);
        if user in tx.users && tx.users[user].enabled && currentValid {
          tx := tx.(users := tx.users[user := tx.users[user].(authVersion := tx.users[user].authVersion + 1)]);
          outcome := Commit(tx, Done);
        }
      }
      reply := Finish(Call.ChangePassword(user, acceptable, currentValid), now, fate, outcome);
    }

    // Provisioning, and the staff workflows that change a user.
    method Provision(user: Id, now: int, fate: Fate) returns (reply: Reply)
      requires Valid()
      modifies this
      ensures Performed(Step(Call.Provision(user), now, fate), reply)
    {
      var tx := Tables(users, sessions, tokens);
      var outcome := Rollback(UniqueViolation);
      if user !in tx.users {
        tx := tx.(users := tx.users[user := User(true, 1)]);
        outcome := Commit(tx, Done);
      }
      reply := Finish(Call.Provision(user), now, fate, outcome);
    }

    method StaffChange(user: Id, enabled: bool, now: int, fate: Fate) returns (reply: Reply)
      requires Valid()
      modifies this
      ensures Performed(Step(Call.StaffChange(user, enabled), now, fate), reply)
    {
      var tx := Tables(users, sessions, tokens);
      var outcome := Rollback(NotFound);
      if user in tx.users {
        tx := tx.(users := tx.users[user := User(enabled, tx.users[user].authVersion + 1)]);
        outcome := Commit(tx, Done);
      }
      reply := Finish(Call.StaffChange(user, enabled), now, fate, outcome);
    }
  }

  // ----- who is let in -----

  // A login issues exactly when the user is there and enabled, the password is right and both ids are
  // new: one session at the user's version and its root token, both for seven days. Otherwise no table
  // changes.
  lemma {:induction false} LoginIssuesExactlyWhen(t: Tables, user: Id, passwordValid: bool, session: Id, token: Id,
        now: int, fate: Fate)
    ensures var s := Step(Call.Login(user, passwordValid, session, token), now, fate); var t' := Next(t, s);
      var known := user in t.users && t.users[user].enabled && passwordValid;
      var issued := known && session !in t.sessions && token !in t.tokens;
      var end := now + 604_800_000_000;
      (fate != Aborted && issued ==>
        t' == Tables(t.users,
          t.sessions[session := Session(user, t.users[user].authVersion, end, false)],
          t.tokens[token := RefreshToken(session, None, end, false)])) &&
      (fate == Aborted || !issued ==> t' == t) &&
      (fate == Acknowledged ==>
        Answer(t, s) == if issued then Issued(token, end) else if known then UniqueViolation else InvalidCredentials)
  {
  }

  // A refresh issues exactly when its token is not consumed, its session not revoked and at the version
  // of an enabled user, both unexpired, and the successor's id new.
  predicate MayRefresh(t: Tables, token: Id, now: int) {
    token in t.tokens && t.tokens[token].session in t.sessions &&
    t.sessions[t.tokens[token].session].user in t.users &&
    var k := t.tokens[token]; var s := t.sessions[k.session]; var u := t.users[s.user];
    !k.consumed && now < k.expiresAt && !s.revoked && now < s.expiresAt && u.enabled && s.authVersion == u.authVersion
  }

  lemma {:induction false} RefreshIssuesExactlyWhen(t: Tables, token: Id, successor: Id, now: int)
    ensures var tx := RefreshTx(t, token, successor, now);
      (tx.reply.Issued? <==> MayRefresh(t, token, now) && successor !in t.tokens) &&
      (tx.reply.Issued? ==>
        var k := t.tokens[token];
        tx == Commit(Tables(t.users, t.sessions,
          t.tokens[token := RefreshToken(k.session, k.parent, k.expiresAt, true)]
            [successor := RefreshToken(k.session, Some(token), t.sessions[k.session].expiresAt, false)]),
          Issued(successor, t.sessions[k.session].expiresAt)))
  {
  }

  // A refused refresh changes nothing, except that presenting a consumed token revokes its session.
  lemma {:induction false} RefusedRefreshOnlyRevokes(t: Tables, token: Id, successor: Id, now: int)
    requires !RefreshTx(t, token, successor, now).reply.Issued?
    ensures var tx := RefreshTx(t, token, successor, now);
      tx.Commit? ==>
        tx.reply == InvalidRefresh &&
        if token in t.tokens && t.tokens[token].consumed then
          var s := t.tokens[token].session;
          s in t.sessions && tx.tables == t.(sessions := t.sessions[s := t.sessions[s].(revoked := true)])
        else tx.tables == t
  {
    if token in t.tokens && t.tokens[token].session in t.sessions && t.sessions[t.tokens[token].session].revoked {
      var s := t.tokens[token].session;
      assert t.sessions[s := t.sessions[s].(revoked := true)] == t.sessions;
    }
  }

  // A password changes exactly when the new one is acceptable, the user is there and enabled and the
  // current one is right; then only that user's version advances. Otherwise nothing changes.
  lemma {:induction false} PasswordChangesExactlyWhen(t: Tables, user: Id, acceptable: bool, currentValid: bool,
        now: int, fate: Fate)
    ensures var s := Step(Call.ChangePassword(user, acceptable, currentValid), now, fate); var t' := Next(t, s);
      var known := user in t.users && t.users[user].enabled && currentValid;
      (fate != Aborted && acceptable && known ==>
        t' == Tables(t.users[user := User(true, t.users[user].authVersion + 1)], t.sessions, t.tokens)) &&
      (fate == Aborted || !acceptable || !known ==> t' == t) &&
      (fate == Acknowledged ==>
        Answer(t, s) == if !acceptable then WeakPassword else if known then Done else InvalidPassword)
  {
  }

  // ----- the family of a session, read off the run -----

  predicate RotatesIn(t: Tables, s: Step) {
    Committed(t, s) && s.call.Refresh? && Body(t, s.call, s.now).reply.Issued?
  }

  predicate OpensIn(t: Tables, s: Step) {
    Committed(t, s) && s.call.Login? && Body(t, s.call, s.now).reply.Issued?
  }

  predicate Rotates(steps: seq<Step>, k: nat, session: Id)
    requires k < |steps|
  {
    var t := At(steps, k);
    RotatesIn(t, steps[k]) && t.tokens[steps[k].call.token].session == session
  }

  // The tokens of a session in the order they were issued.
  function Family(steps: seq<Step>, session: Id): seq<Id> {
    if steps == [] then []
    else
      var n := |steps| - 1;
      var before := Family(steps[..n], session);
      var t, s := Run(steps[..n]), steps[n];
      if OpensIn(t, s) && s.call.session == session then [s.call.token]
      else if RotatesIn(t, s) && t.tokens[s.call.token].session == session then before + [s.call.successor]
      else before
  }

  function Rotations(steps: seq<Step>, session: Id): nat {
    if steps == [] then 0
    else Rotations(steps[..|steps|-1], session) + (if Rotates(steps, |steps| - 1, session) then 1 else 0)
  }

  predicate LinkOk(t: Tables, session: Id, family: seq<Id>, k: nat)
    requires k < |family|
  {
    family[k] in t.tokens &&
    var token := t.tokens[family[k]];
    token.session == session && token.parent == (if k == 0 then None else Some(family[k-1])) &&
    (token.consumed <==> k < |family| - 1) &&
    session in t.sessions && token.expiresAt == t.sessions[session].expiresAt
  }

  // One simple chain of parents: every token but the last is consumed, all expire with the session,
  // and there is no other token of the session.
  predicate FamilyOk(t: Tables, session: Id, family: seq<Id>) {
    (forall k :: 0 <= k < |family| ==> LinkOk(t, session, family, k)) &&
    (forall j, k :: 0 <= j < k < |family| ==> family[j] != family[k]) &&
    (forall x :: x in t.tokens && t.tokens[x].session == session ==> x in family) &&
    (session in t.sessions <==> family != [])
  }

  // Nothing else of the store changes what a family sees.
  predicate SameFamily(t: Tables, t': Tables, session: Id) {
    (session in t.sessions <==> session in t'.sessions) &&
    (session in t.sessions ==> t'.sessions[session].expiresAt == t.sessions[session].expiresAt) &&
    (forall x :: x in t.tokens && t.tokens[x].session == session ==> x in t'.tokens && t'.tokens[x] == t.tokens[x]) &&
    (forall x :: x in t'.tokens && t'.tokens[x].session == session ==> x in t.tokens && t.tokens[x].session == session)
  }

  lemma {:induction false} SameFamilyStays(t: Tables, t': Tables, session: Id, family: seq<Id>)
    requires FamilyOk(t, session, family) && SameFamily(t, t', session)
    ensures FamilyOk(t', session, family)
  {
    forall k | 0 <= k < |family| ensures LinkOk(t', session, family, k) { assert LinkOk(t, session, family, k); }
  }

  lemma {:induction false} OtherStepsKeepTheFamily(t: Tables, s: Step, session: Id)
    requires Committed(t, s)
    requires !(OpensIn(t, s) && s.call.session == session)
    requires !(RotatesIn(t, s) && t.tokens[s.call.token].session == session)
    ensures SameFamily(t, Next(t, s), session)
  {
  }

  lemma {:induction false} OpeningStartsTheFamily(t: Tables, s: Step)
    requires OpensIn(t, s) && FamilyOk(t, s.call.session, [])
    ensures FamilyOk(Next(t, s), s.call.session, [s.call.token])
  {
  }

  lemma {:induction false} TheTipRotates(t: Tables, s: Step, family: seq<Id>)
    requires RotatesIn(t, s) && FamilyOk(t, t.tokens[s.call.token].session, family)
    ensures family != [] && s.call.token == family[|family|-1] && s.call.successor !in t.tokens
    ensures Resolves(t, s.call.token) && Next(t, s) == Rotated(t, s.call.token, s.call.successor)
  {
    assert s.call.token in family;
    var k :| 0 <= k < |family| && family[k] == s.call.token;
    assert LinkOk(t, t.tokens[s.call.token].session, family, k);
  }

  lemma {:induction false} RotatingExtendsTheFamily(t: Tables, token: Id, successor: Id, family: seq<Id>)
    requires Resolves(t, token) && FamilyOk(t, t.tokens[token].session, family)
    requires family != [] && token == family[|family|-1] && successor !in t.tokens
    ensures FamilyOk(Rotated(t, token, successor), t.tokens[token].session, family + [successor])
  {
    var session := t.tokens[token].session;
    var t' := Rotated(t, token, successor);
    var more := family + [successor];
    forall x | x in t'.tokens && t'.tokens[x].session == session ensures x in more {
      if x != successor { assert x in t.tokens && x in family; } else { assert more[|family|] == x; }
    }
    forall j, k | 0 <= j < k < |more| ensures more[j] != more[k] {
      assert LinkOk(t, session, family, j);
      if k < |family| { assert family[j] != family[k]; }
    }
    forall k | 0 <= k < |more| ensures LinkOk(t', session, more, k) {
      assert LinkOk(t, session, family, |family| - 1);
      if k < |family| { assert LinkOk(t, session, family, k); }
      if k < |family| - 1 { assert family[k] != family[|family|-1]; }
    }
  }

  lemma {:induction false} FamiliesAreChains(steps: seq<Step>, session: Id)
    ensures FamilyOk(Run(steps), session, Family(steps, session))
  {
    if steps != [] {
      var n := |steps| - 1;
      var t, s := Run(steps[..n]), steps[n];
      FamiliesAreChains(steps[..n], session);
      hide FamilyOk, Committed, RotatesIn, OpensIn, Next;
      FamilyStep(t, s, session, Family(steps[..n], session));
    }
  }

  lemma {:induction false} FamilyStep(t: Tables, s: Step, session: Id, before: seq<Id>)
    requires FamilyOk(t, session, before)
    ensures FamilyOk(Next(t, s), session,
      if OpensIn(t, s) && s.call.session == session then [s.call.token]
      else if RotatesIn(t, s) && t.tokens[s.call.token].session == session then before + [s.call.successor]
      else before)
  {
    if Committed(t, s) {
      if OpensIn(t, s) && s.call.session == session {
        NewSessionIsNew(t, s, before);
        OpeningStartsTheFamily(t, s);
      } else if RotatesIn(t, s) && t.tokens[s.call.token].session == session {
        TheTipRotates(t, s, before);
        RotatingExtendsTheFamily(t, s.call.token, s.call.successor, before);
      } else {
        OtherStepsKeepTheFamily(t, s, session);
        SameFamilyStays(t, Next(t, s), session, before);
      }
    }
  }

  lemma {:induction false} NewSessionIsNew(t: Tables, s: Step, before: seq<Id>)
    requires OpensIn(t, s) && FamilyOk(t, s.call.session, before)
    ensures before == []
  {
  }

  lemma {:induction false} FamilyLength(steps: seq<Step>, session: Id)
    ensures |Family(steps, session)| == (if session in Run(steps).sessions then 1 + Rotations(steps, session) else 0)
    ensures session !in Run(steps).sessions ==> Rotations(steps, session) == 0
  {
    if steps != [] {
      var n := |steps| - 1;
      var t, s := Run(steps[..n]), steps[n];
      FamilyLength(steps[..n], session);
      FamiliesAreChains(steps[..n], session);
      SessionsStay(t, s, session);
      if OpensIn(t, s) && s.call.session == session { NewSessionIsNew(t, s, Family(steps[..n], session)); }
      if RotatesIn(t, s) && t.tokens[s.call.token].session == session { TheTipRotates(t, s, Family(steps[..n],
          session)); }
      hide Committed, RotatesIn, OpensIn, Next, FamilyOk;
    }
  }

  lemma {:induction false} SessionsStay(t: Tables, s: Step, session: Id)
    ensures session in t.sessions ==> session in Next(t, s).sessions
    ensures session !in t.sessions && session in Next(t, s).sessions ==> OpensIn(t, s) && s.call.session == session
    ensures OpensIn(t, s) && s.call.session == session ==> session !in t.sessions && session in Next(t, s).sessions
    ensures RotatesIn(t, s) ==> t.tokens[s.call.token].session in t.sessions
  {
  }

  // In every interleaving, a session's tokens form one chain of parents of length 1 + its rotations,
  // from the root that login issued to the tip, and the tip is its only unconsumed token.
  lemma {:induction false} FamilyShape(steps: seq<Step>, session: Id, x: Id)
    requires x in Run(steps).tokens && Run(steps).tokens[x].session == session
    ensures var t := Run(steps); var family := Family(steps, session);
      session in t.sessions && FamilyOk(t, session, family) && |family| == 1 + Rotations(steps, session) &&
      t.tokens[x].expiresAt == t.sessions[session].expiresAt &&
      (t.tokens[x].parent.None? <==> x == family[0]) && (!t.tokens[x].consumed <==> x == family[|family|-1])
  {
    hide Run, Family, Rotations, FamilyOk;
    FamiliesAreChains(steps, session);
    FamilyLength(steps, session);
    PlaceInFamily(Run(steps), session, Family(steps, session), x);
  }

  lemma {:induction false} PlaceInFamily(t: Tables, session: Id, family: seq<Id>, x: Id)
    requires FamilyOk(t, session, family) && x in t.tokens && t.tokens[x].session == session
    ensures family != [] && session in t.sessions && t.tokens[x].expiresAt == t.sessions[session].expiresAt
    ensures (t.tokens[x].parent.None? <==> x == family[0]) && (!t.tokens[x].consumed <==> x == family[|family|-1])
  {
    assert x in family;
    var k :| 0 <= k < |family| && family[k] == x;
    assert LinkOk(t, session, family, k);
    assert k > 0 ==> family[0] != family[k];
    assert k < |family| - 1 ==> family[k] != family[|family|-1];
  }

  // ----- what only goes one way -----

  // Consumption, revocation and auth versions are never undone, and sessions keep their user,
  // captured version and expiry.
  predicate Forward(t: Tables, t': Tables) {
    (forall x :: x in t.tokens ==>
      x in t'.tokens && t'.tokens[x].session == t.tokens[x].session &&
      (t.tokens[x].consumed ==> t'.tokens[x].consumed)) &&
    (forall s :: s in t.sessions ==>
      s in t'.sessions && t'.sessions[s].user == t.sessions[s].user &&
      t'.sessions[s].authVersion == t.sessions[s].authVersion &&
      t'.sessions[s].expiresAt == t.sessions[s].expiresAt && (t.sessions[s].revoked ==> t'.sessions[s].revoked)) &&
    (forall u :: u in t.users ==> u in t'.users && t.users[u].authVersion <= t'.users[u].authVersion)
  }

  lemma {:induction false} RefreshGoesForward(t: Tables, token: Id, successor: Id, now: int)
    ensures var tx := RefreshTx(t, token, successor, now); tx.Commit? ==> Forward(t, tx.tables)
  {
  }

  lemma {:induction false} StepsGoForward(t: Tables, s: Step)
    ensures Forward(t, Next(t, s))
  {
    if s.call.Refresh? {
      hide RefreshTx, Forward;
      RefreshGoesForward(t, s.call.token, s.call.successor, s.now);
      StandingStill(t);
    }
  }

  lemma {:induction false} StandingStill(t: Tables)
    ensures Forward(t, t)
  {
  }

  lemma {:induction false} RunsGoForward(steps: seq<Step>, i: nat, j: nat)
    requires i <= j <= |steps|
    ensures Forward(At(steps, i), At(steps, j))
  {
    if i < j {
      RunsGoForward(steps, i, j - 1);
      OneStep(steps, j - 1);
      StepsGoForward(At(steps, j - 1), steps[j-1]);
      hide Next, Run;
    }
  }

  // A session captures its user's version, which only grows.
  predicate VersionsOk(t: Tables) {
    forall s :: s in t.sessions ==>
      t.sessions[s].user in t.users && t.sessions[s].authVersion <= t.users[t.sessions[s].user].authVersion
  }

  lemma {:induction false} VersionsStayOk(steps: seq<Step>)
    ensures VersionsOk(Run(steps))
  {
    if steps != [] {
      VersionsStayOk(steps[..|steps|-1]);
      VersionsStep(Run(steps[..|steps|-1]), steps[|steps|-1]);
    }
  }

  lemma {:induction false} VersionsStep(t: Tables, s: Step)
    requires VersionsOk(t)
    ensures VersionsOk(Next(t, s))
  {
  }

  // The session can never be refreshed again: it is revoked, or its user has moved on.
  predicate Ended(t: Tables, session: Id) {
    session in t.sessions && t.sessions[session].user in t.users &&
    (t.sessions[session].revoked || t.users[t.sessions[session].user].authVersion > t.sessions[session].authVersion)
  }

  lemma {:induction false} RotationNeedsALiveSession(t: Tables, s: Step)
    requires RotatesIn(t, s)
    ensures s.call.token in t.tokens && !t.tokens[s.call.token].consumed && !Ended(t, t.tokens[s.call.token].session)
    ensures Next(t, s).tokens[s.call.token].consumed
    ensures t.tokens[s.call.token].session in t.sessions && s.now < t.sessions[t.tokens[s.call.token].session].expiresAt
  {
  }

  // After revocation or an auth_version advance, no refresh in that family ever succeeds again.
  lemma {:induction false} EndedForGood(steps: seq<Step>, i: nat, j: nat, session: Id)
    requires i <= j < |steps| && Ended(At(steps, i), session)
    ensures !Rotates(steps, j, session)
  {
    RunsGoForward(steps, i, j);
    hide Run, RotatesIn;
    if Rotates(steps, j, session) { RotationNeedsALiveSession(At(steps, j), steps[j]); }
  }

  // Of any number of refreshes presenting one token, at most one succeeds.
  lemma {:induction false} TokensRotateOnce(steps: seq<Step>, i: nat, j: nat, session: Id)
    requires i < j < |steps| && Rotates(steps, i, session)
    requires steps[j].call.Refresh? && steps[j].call.token == steps[i].call.token
    ensures !RotatesIn(At(steps, j), steps[j])
  {
    hide Run, RotatesIn;
    RotationNeedsALiveSession(At(steps, i), steps[i]);
    OneStep(steps, i);
    RunsGoForward(steps, i + 1, j);
    if RotatesIn(At(steps, j), steps[j]) { RotationNeedsALiveSession(At(steps, j), steps[j]); }
  }

  lemma {:induction false} ReplayStep(t: Tables, s: Step)
    requires VersionsOk(t) && s.call.Refresh? && s.fate != Aborted
    requires s.call.token in t.tokens && t.tokens[s.call.token].consumed && t.tokens[s.call.token].session in t.sessions
    ensures var session := t.tokens[s.call.token].session;
      session in Next(t, s).sessions && Next(t, s).sessions[session].revoked && Ended(Next(t, s),
          session) && !Answer(t, s).Issued?
  {
  }

  // Presenting a consumed token leaves the session revoked; so does a second use of a token that
  // was rotated, whether or not the first caller heard of its success. Nothing is refreshed after.
  lemma {:induction false} ReplayRevokes(steps: seq<Step>, i: nat, j: nat, m: nat, session: Id)
    requires i < j <= m < |steps| && Rotates(steps, i, session)
    requires steps[j].call.Refresh? && steps[j].call.token == steps[i].call.token && steps[j].fate != Aborted
    ensures session in At(steps, j + 1).sessions && At(steps, j + 1).sessions[session].revoked
    ensures !Answer(At(steps, j), steps[j]).Issued? && !Rotates(steps, m, session)
  {
    hide Run, RotatesIn, Answer, VersionsOk, Next, Ended;
    SpentToken(steps, i, j, session);
    VersionsStayOk(steps[..j]);
    ReplayStep(At(steps, j), steps[j]);
    OneStep(steps, j);
    if m > j { EndedForGood(steps, j + 1, m, session); } else { TokensRotateOnce(steps, i, j, session); }
  }

  lemma {:induction false} SpentToken(steps: seq<Step>, i: nat, j: nat, session: Id)
    requires i < j <= |steps| && Rotates(steps, i, session)
    ensures var t := At(steps, j); var token := steps[i].call.token;
      token in t.tokens && t.tokens[token].consumed && t.tokens[token].session == session && session in t.sessions
  {
    hide Run, RotatesIn, Next;
    RotationNeedsALiveSession(At(steps, i), steps[i]);
    OneStep(steps, i);
    RunsGoForward(steps, i, i + 1);
    RunsGoForward(steps, i + 1, j);
  }

  // Logging out with any token of the family, live or consumed, ends it.
  lemma {:induction false} LogoutEnds(steps: seq<Step>, k: nat, session: Id)
    requires k < |steps| && steps[k].call.Logout? && steps[k].fate != Aborted
    requires session in At(steps, k).sessions && steps[k].call.token in Family(steps[..k], session)
    ensures Ended(At(steps, k + 1), session)
  {
    OneStep(steps, k);
    FamiliesAreChains(steps[..k], session);
    VersionsStayOk(steps[..k]);
    hide Run, Family;
    LogoutStep(At(steps, k), steps[k], session, Family(steps[..k], session));
  }

  lemma {:induction false} LogoutStep(t: Tables, s: Step, session: Id, family: seq<Id>)
    requires FamilyOk(t, session, family) && VersionsOk(t) && session in t.sessions
    requires s.call.Logout? && s.fate != Aborted && s.call.token in family
    ensures Ended(Next(t, s), session)
  {
    var k :| 0 <= k < |family| && family[k] == s.call.token;
    assert LinkOk(t, session, family, k);
  }

  // A password change ends every session its user had, in one transaction.
  lemma {:induction false} PasswordChangeEndsAll(steps: seq<Step>, k: nat, session: Id)
    requires k < |steps| && Committed(At(steps, k), steps[k]) && steps[k].call.ChangePassword?
    requires Body(At(steps, k), steps[k].call, steps[k].now).reply == Done
    requires session in At(steps, k).sessions && At(steps, k).sessions[session].user == steps[k].call.user
    ensures Ended(At(steps, k + 1), session)
  {
    OneStep(steps, k);
    VersionsStayOk(steps[..k]);
    hide Run;
  }

  // ----- disabled users -----

  predicate Enables(steps: seq<Step>, k: nat, user: Id)
    requires k < |steps|
  {
    steps[k].call == StaffChange(user, true)
  }

  predicate Disabled(t: Tables, user: Id) {
    user in t.users && !t.users[user].enabled
  }

  lemma {:induction false} DisabledStep(t: Tables, s: Step, user: Id)
    requires Disabled(t, user) && s.call != StaffChange(user, true)
    ensures Disabled(Next(t, s), user)
    ensures s.call.Login? && s.call.user == user ==> !Body(t, s.call, s.now).reply.Issued?
    ensures s.call.Refresh? && Resolves(t, s.call.token) && t.sessions[t.tokens[s.call.token].session].user == user ==>
      !Body(t, s.call, s.now).reply.Issued?
  {
  }

  lemma {:induction false} DisabledStays(steps: seq<Step>, i: nat, j: nat, user: Id)
    requires i <= j <= |steps| && Disabled(At(steps, i), user)
    requires forall k :: i <= k < j ==> !Enables(steps, k, user)
    ensures Disabled(At(steps, j), user)
  {
    hide Run, Next, Disabled;
    if i < j {
      DisabledStays(steps, i, j - 1, user);
      assert !Enables(steps, j - 1, user);
      OneStep(steps, j - 1);
      DisabledStep(At(steps, j - 1), steps[j-1], user);
    }
  }

  // From a committed disabling on, until staff enable the user again, nobody logs in as the user and no
  // session of the user is refreshed.
  lemma {:induction false} DisabledUsersStayOut(steps: seq<Step>, i: nat, j: nat, user: Id)
    requires i < j < |steps| && Committed(At(steps, i), steps[i]) && steps[i].call == StaffChange(user, false)
    requires forall k :: i < k <= j ==> !Enables(steps, k, user)
    ensures var t, s := At(steps, j), steps[j];
      (s.call.Login? && s.call.user == user ==> !Body(t, s.call, s.now).reply.Issued?) &&
      (s.call.Refresh? && Resolves(t, s.call.token) && t.sessions[t.tokens[s.call.token].session].user == user ==>
        !Body(t, s.call, s.now).reply.Issued?)
  {
    hide Run;
    OneStep(steps, i);
    DisabledStays(steps, i + 1, j, user);
    assert !Enables(steps, j, user);
    DisabledStep(At(steps, j), steps[j], user);
  }
}
