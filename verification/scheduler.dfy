// internal/executor/service.go: how one executor process admits work and takes turns among banks.
module Scheduler {

  type Bank = nat

  // ----- admission as atomic steps under the mutex -----

  datatype Limits = Limits(maxClaims: nat, perBank: nat)

  // The service's counters, with the reservations the cycle holds and the workers that run.
  datatype State = State(inFlight: int, byBank: map<Bank, int>, held: multiset<Bank>, workers: multiset<Bank>)

  const IDLE: State := State(0, map[], multiset{}, multiset{})

  // A Go map reads a missing key as zero.
  function Count(byBank: map<Bank, int>, bank: Bank): int {
    if bank in byBank then byBank[bank] else 0
  }

  predicate HasRoom(l: Limits, s: State, bank: Bank) {
    s.inFlight < l.maxClaims && Count(s.byBank, bank) < l.perBank
  }

  function Reserved(s: State, bank: Bank): State {
    s.(inFlight := s.inFlight + 1, byBank := s.byBank[bank := Count(s.byBank, bank) + 1])
  }

  function Released(s: State, bank: Bank): State {
    s.(inFlight := s.inFlight - 1, byBank := s.byBank[bank := Count(s.byBank, bank) - 1])
  }

  // The cycle tries to reserve, gives a reservation back, or hands it to a worker; a worker ends.
  datatype Action = Try(bank: Bank) | GiveBack(bank: Bank) | Spawn(bank: Bank) | End(bank: Bank)

  predicate Enabled(s: State, a: Action) {
    match a
    case Try(_) => true
    case GiveBack(b) => b in s.held
    case Spawn(b) => b in s.held
    case End(b) => b in s.workers
  }

  function Act(l: Limits, s: State, a: Action): State {
    match a
    case Try(b) => if HasRoom(l, s, b) then Reserved(s, b).(held := s.held + multiset{b}) else s
    case GiveBack(b) => Released(s, b).(held := s.held - multiset{b})
    case Spawn(b) => s.(held := s.held - multiset{b}, workers := s.workers + multiset{b})
    case End(b) => Released(s, b).(workers := s.workers - multiset{b})
  }

  function Run(l: Limits, actions: seq<Action>): State {
    if actions == [] then IDLE
    else
      var s := Run(l, actions[..|actions|-1]);
      var a := actions[|actions|-1];
      if Enabled(s, a) then Act(l, s, a) else s
  }

  ghost function Sum(m: map<Bank, int>): int
    decreases |m.Keys|
  {
    if m.Keys == {} then 0 else var k: Bank :| k in m.Keys; RemoveOne(m, k); m[k] + Sum(m - {k})
  }

  lemma {:induction false} RemoveOne(m: map<Bank, int>, k: Bank)
    requires k in m
    ensures (m - {k}).Keys == m.Keys - {k} && |(m - {k}).Keys| == |m.Keys| - 1
  {
    assert (m - {k}).Keys == m.Keys - {k};
  }

  lemma {:induction false} SumAnyFirst(m: map<Bank, int>, k: Bank)
    requires k in m
    ensures Sum(m) == m[k] + Sum(m - {k})
    decreases |m.Keys|
  {
    var j: Bank :| j in m.Keys && Sum(m) == m[j] + Sum(m - {j});
    if j != k {
      RemoveOne(m, j);
      RemoveOne(m, k);
      assert (m - {j})[k] == m[k] && (m - {k})[j] == m[j];
      SumAnyFirst(m - {j}, k);
      SumAnyFirst(m - {k}, j);
      assert m - {j} - {k} == m - {k} - {j};
    }
  }

  lemma {:induction false} SumUpdate(m: map<Bank, int>, k: Bank, v: int)
    ensures Sum(m[k := v]) == Sum(m) - Count(m, k) + v
  {
    SumAnyFirst(m[k := v], k);
    if k in m {
      SumAnyFirst(m, k);
      assert m[k := v] - {k} == m - {k};
    } else {
      assert m[k := v] - {k} == m;
    }
  }

  ghost predicate PerBank(l: Limits, byBank: map<Bank, int>, held: multiset<Bank>, workers: multiset<Bank>) {
    forall b: Bank :: Count(byBank, b) == held[b] + workers[b] <= l.perBank
  }

  // Every unit in the counters belongs to one running worker or one reservation of the cycle.
  ghost predicate Conserved(l: Limits, s: State) {
    s.inFlight == Sum(s.byBank) == |s.held| + |s.workers| <= l.maxClaims && PerBank(l, s.byBank, s.held, s.workers)
  }

  lemma {:induction false} TakingKeepsPerBank(l: Limits, s: State, b: Bank)
    requires PerBank(l, s.byBank, s.held, s.workers) && Count(s.byBank, b) < l.perBank
    ensures PerBank(l, Reserved(s, b).byBank, s.held + multiset{b}, s.workers)
  {
  }

  lemma {:induction false} ReleasingKeepsPerBank(l: Limits, s: State, b: Bank)
    requires PerBank(l, s.byBank, s.held, s.workers)
    ensures b in s.held ==> PerBank(l, Released(s, b).byBank, s.held - multiset{b}, s.workers)
    ensures b in s.workers ==> PerBank(l, Released(s, b).byBank, s.held, s.workers - multiset{b})
  {
  }

  lemma {:induction false} HandingOverKeepsPerBank(l: Limits, s: State, b: Bank)
    requires PerBank(l, s.byBank, s.held, s.workers) && b in s.held
    ensures PerBank(l, s.byBank, s.held - multiset{b}, s.workers + multiset{b})
  {
  }

  lemma {:induction false} ActConserves(l: Limits, s: State, a: Action)
    requires Conserved(l, s) && Enabled(s, a)
    ensures Conserved(l, Act(l, s, a))
  {
    hide PerBank;
    var b := a.bank;
    match a
    case Try(_) =>
      if HasRoom(l, s, b) {
        SumUpdate(s.byBank, b, Count(s.byBank, b) + 1);
        TakingKeepsPerBank(l, s, b);
      }
    case Spawn(_) => HandingOverKeepsPerBank(l, s, b);
    case _ =>
      SumUpdate(s.byBank, b, Count(s.byBank, b) - 1);
      ReleasingKeepsPerBank(l, s, b);
  }

  // Under any interleaving of the cycle and its workers the counters are exact and within bounds.
  lemma {:induction false} ReservationsAreConserved(l: Limits, actions: seq<Action>)
    ensures Conserved(l, Run(l, actions))
  {
    if actions == [] {
      assert Sum(IDLE.byBank) == 0;
    } else {
      var s, a := Run(l, actions[..|actions|-1]), actions[|actions|-1];
      ReservationsAreConserved(l, actions[..|actions|-1]);
      hide Conserved;
      if Enabled(s, a) { ActConserves(l, s, a); }
    }
  }

  // ----- each reservation is released exactly once -----

  function Takes(l: Limits, actions: seq<Action>, bank: Bank): nat {
    if actions == [] then 0
    else
      var n := |actions| - 1;
      Takes(l, actions[..n], bank) + (if actions[n] == Try(bank) && HasRoom(l, Run(l, actions[..n]),
          bank) then 1 else 0)
  }

  function Releases(l: Limits, actions: seq<Action>, bank: Bank): nat {
    if actions == [] then 0
    else
      var n := |actions| - 1;
      var s, a := Run(l, actions[..n]), actions[n];
      Releases(l, actions[..n], bank) + (if (a == GiveBack(bank) || a == End(bank)) && Enabled(s, a) then 1 else 0)
  }

  // What was taken and not released is exactly what is held or running; so when nothing is, every
  // reservation has been released once.
  lemma {:induction false} EachReservationIsReleasedOnce(l: Limits, actions: seq<Action>, bank: Bank)
    ensures Takes(l, actions, bank) == Releases(l, actions, bank) + Run(l, actions).held[bank] + Run(l,
        actions).workers[bank]
  {
    if actions != [] { EachReservationIsReleasedOnce(l, actions[..|actions|-1], bank); }
  }

  // ----- the service object -----

  datatype ClaimOutcome = Work | Nothing | Broken

  // What the store answers for one bank, and which workers end before each of its two reservations.
  datatype Turn = Turn(endedFirst: seq<Bank>, batch: ClaimOutcome, endedThen: seq<Bank>, expiry: ClaimOutcome)

  class Service {
    const limits: Limits
    var inFlight: int
    var byBank: map<Bank, int>
    var rotation: nat
    ghost var held: multiset<Bank>
    var workers: multiset<Bank>    // the running goroutines

    ghost function Now(): State
      reads this
    {
      State(inFlight, byBank, held, workers)
    }

    ghost predicate Valid()
      reads this
    {
      Conserved(limits, Now())
    }

    constructor (l: Limits)
      ensures limits == l && Valid() && Now() == IDLE && rotation == 0
    {
      limits, inFlight, byBank, rotation := l, 0, map[], 0;
      held, workers := multiset{}, multiset{};
      new;
      ReservationsAreConserved(l, []);
    }

    method Reserve(bank: Bank) returns (ok: bool)
      requires Valid()
      modifies this`inFlight, this`byBank, this`held
      ensures Valid() && Now() == Act(limits, old(Now()), Try(bank)) && ok == HasRoom(limits, old(Now()), bank)
    {
      hide Conserved;
      ActConserves(limits, Now(), Try(bank));
      if inFlight >= limits.maxClaims || Count(byBank, bank) >= limits.perBank { return false; }
      inFlight := inFlight + 1;
      byBank := byBank[bank := Count(byBank, bank) + 1];
      held := held + multiset{bank};
      ok := true;
    }

    // Called by a worker as it ends, or by the cycle for a reservation it could not use.
    method Release(bank: Bank, byWorker: bool)
      requires Valid() && Enabled(Now(), if byWorker then End(bank) else GiveBack(bank))
      modifies this`inFlight, this`byBank, this`held, this`workers
      ensures Valid() && Now() == Act(limits, old(Now()), if byWorker then End(bank) else GiveBack(bank))
    {
      hide Conserved;
      ActConserves(limits, Now(), if byWorker then End(bank) else GiveBack(bank));
      inFlight := inFlight - 1;
      byBank := byBank[bank := Count(byBank, bank) - 1];
      if byWorker { workers := workers - multiset{bank}; } else { held := held - multiset{bank}; }
    }

    // Workers end on their own while the cycle runs.
    method Let(ended: seq<Bank>)
      requires Valid()
      modifies this`inFlight, this`byBank, this`held, this`workers
      ensures Valid() && held == old(held)
    {
      for k := 0 to |ended|
        invariant Valid() && held == old(held)
      {
        if ended[k] in workers { Release(ended[k], true); }
      }
    }

    // One reservation of the cycle: claim with it, and hand it to a worker or give it back.
    method TryClaim(bank: Bank, outcome: ClaimOutcome) returns (reserved: bool, ok: bool)
      requires Valid() && held == multiset{}
      modifies this`inFlight, this`byBank, this`held, this`workers
      ensures Valid() && held == multiset{}
      ensures reserved == HasRoom(limits, old(Now()), bank) && ok == !(reserved && outcome == Broken)
      ensures workers == if reserved && outcome == Work then old(workers) + multiset{bank} else old(workers)
    {
      hide Conserved;
      reserved := Reserve(bank);
      ok := true;
      if reserved {
        if outcome == Work {
          ActConserves(limits, Now(), Spawn(bank));
          workers := workers + multiset{bank};
          held := held - multiset{bank};
        } else {
          Release(bank, false);
          ok := outcome != Broken;
        }
      }
    }

    // The claiming half of cycle. On every path, early error returns included, no reservation stays
    // behind without a worker.
    method Cycle(routes: seq<Bank>, turns: seq<Turn>) returns (ok: bool)
      requires Valid() && held == multiset{} && |turns| >= |routes|
      modifies this
      ensures Valid() && held == multiset{} && inFlight == |workers|
    {
      var banks := Rotate(routes);
      for k := 0 to |banks|
        invariant Valid() && held == multiset{} && |turns| >= |banks|
      {
        Let(turns[k].endedFirst);
        var reserved, claimed := TryClaim(banks[k], turns[k].batch);
        if !claimed { return false; }
        if reserved {
          Let(turns[k].endedThen);
          reserved, claimed := TryClaim(banks[k], turns[k].expiry);
          if !claimed { return false; }
        }
      }
      ok := true;
    }

    method Rotate(banks: seq<Bank>) returns (order: seq<Bank>)
      modifies this`rotation
      ensures order == Rotation(banks, old(rotation)) && rotation == NextRotation(|banks|, old(rotation))
      ensures |order| == |banks|
    {
      if |banks| < 2 { return banks; }
      var start := rotation % |banks|;
      rotation := (rotation + 1) % |banks|;
      order := banks[start..] + banks[..start];
    }
  }

  // ----- taking turns -----

  function Rotation(banks: seq<Bank>, rotation: nat): seq<Bank> {
    if |banks| < 2 then banks else banks[rotation % |banks|..] + banks[..rotation % |banks|]
  }

  function NextRotation(n: nat, rotation: nat): nat {
    if n < 2 then rotation else (rotation + 1) % n
  }

  // The counter after k more calls with n banks.
  function After(n: nat, rotation: nat, k: nat): nat {
    if k == 0 then rotation else NextRotation(n, After(n, rotation, k - 1))
  }

  // The order is a rotation: the same banks, each as often, starting somewhere in the list.
  lemma {:induction false} RotationKeepsBanks(banks: seq<Bank>, rotation: nat)
    ensures multiset(Rotation(banks, rotation)) == multiset(banks)
    ensures exists s :: 0 <= s <= |banks| && Rotation(banks, rotation) == banks[s..] + banks[..s]
  {
    var s := if |banks| < 2 then 0 else rotation % |banks|;
    assert banks == banks[..s] + banks[s..];
    assert Rotation(banks, rotation) == banks[s..] + banks[..s];
  }

  lemma {:induction false} AfterIsOffset(n: nat, rotation: nat, k: nat)
    requires n >= 2
    ensures After(n, rotation, k) % n == (rotation % n + k) % n
  {
    if k == 0 {
      ModOfMod(rotation, n);
    } else {
      AfterIsOffset(n, rotation, k - 1);
      ModStep(After(n, rotation, k - 1), rotation % n + k - 1, n);
    }
  }

  lemma {:induction false} ModOfMod(a: nat, n: nat)
    requires n >= 1
    ensures (a % n) % n == a % n
  {
  }

  lemma {:induction false} Euclid(x: int, n: nat)
    requires n >= 1
    ensures x == (x / n) * n + x % n && 0 <= x % n < n
  {
  }

  lemma {:induction false} ModStep(a: nat, b: nat, n: nat)
    requires n >= 1 && a % n == b % n
    ensures ((a + 1) % n) % n == (b + 1) % n
  {
    var q := a / n - b / n;
    Euclid(a, n);
    Euclid(b, n);
    Distribute(a / n, b / n, n);
    assert a + 1 == b + 1 + q * n;
    ModShift(b + 1, q, n);
    ModOfMod(a + 1, n);
  }

  lemma {:induction false} ModShift(x: int, q: int, n: nat)
    requires n >= 1
    ensures (x + q * n) % n == x % n
  {
    var y := x + q * n;
    Euclid(x, n);
    Euclid(y, n);
    Distribute(x / n, -q, n);
    assert (-q) * n == -(q * n);
    UniqueQuotient(y / n, y % n, x / n + q, x % n, n);
  }

  lemma {:induction false} UniqueQuotient(q1: int, r1: int, q2: int, r2: int, n: nat)
    requires n >= 1 && 0 <= r1 < n && 0 <= r2 < n && q1 * n + r1 == q2 * n + r2
    ensures r1 == r2
  {
    Distribute(q1, q2, n);
    Distribute(q2, q1, n);
    if q1 > q2 { AtLeastOnce(q1 - q2, n); }
    if q1 < q2 { AtLeastOnce(q2 - q1, n); }
  }

  lemma {:induction false} Distribute(a: int, b: int, n: int)
    ensures (a - b) * n == a * n - b * n
  {
  }

  lemma {:induction false} AtLeastOnce(d: int, n: nat)
    requires d >= 1
    ensures d * n >= n
  {
    if d > 1 {
      AtLeastOnce(d - 1, n);
      Distribute(d, 1, n);
    }
  }

  // Where the list position p comes first among n consecutive calls.
  function TurnOf(n: nat, rotation: nat, p: nat): nat
    requires p < n
  {
    if p >= rotation % n then p - rotation % n else p + n - rotation % n
  }

  // Any n consecutive calls on the same n >= 2 banks put each bank first exactly once.
  lemma {:induction false} EveryBankLeadsOnce(banks: seq<Bank>, rotation: nat, p: nat)
    requires |banks| >= 2 && p < |banks| && forall j, k :: 0 <= j < k < |banks| ==> banks[j] != banks[k]
    ensures var n := |banks|;
      TurnOf(n, rotation, p) < n &&
      forall k :: 0 <= k < n ==>
        (Rotation(banks, After(n, rotation, k))[0] == banks[p] <==> k == TurnOf(n, rotation, p))
  {
    var n := |banks|;
    forall k | 0 <= k < n
      ensures Rotation(banks, After(n, rotation, k))[0] == banks[p] <==> k == TurnOf(n, rotation, p)
    {
      AfterIsOffset(n, rotation, k);
      SmallMod(rotation % n + k, n);
      assert Rotation(banks, After(n, rotation, k))[0] == banks[After(n, rotation, k) % n];
    }
  }

  lemma {:induction false} SmallMod(x: nat, n: nat)
    requires n >= 1 && x < 2 * n
    ensures x % n == if x < n then x else x - n
  {
    if x >= n { UniqueQuotient(x / n, x % n, 1, x - n, n); } else { UniqueQuotient(x / n, x % n, 0, x, n); }
  }
}
