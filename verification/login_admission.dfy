// internal/server/login_admission.go: the fixed-window limiter in front of login.
module LoginAdmission {
  type Source = string    // a client IP, or "unknown"
  type Instant = int      // nanoseconds

  const PERIOD: nat := 60_000_000_000
  const MAX_SOURCES: nat := 10_000
  const DEFAULT_LIMIT: nat := 5

  datatype Window = Window(startedAt: Instant, count: nat)
  datatype Outcome = Outcome(attempts: map<Source, Window>, allowed: bool, retryAfter: int)

  predicate Over(w: Window, now: Instant) {
    now - w.startedAt >= PERIOD
  }

  function Kept(attempts: map<Source, Window>, now: Instant): map<Source, Window> {
    map s | s in attempts && !Over(attempts[s], now) :: attempts[s]
  }

  // One attempt of a source that has no live window.
  function Admit(attempts: map<Source, Window>, source: Source, now: Instant): Outcome {
    var room := if |attempts| >= MAX_SOURCES then Kept(attempts, now) else attempts;
    if |room| >= MAX_SOURCES then Outcome(room, false, PERIOD)
    else Outcome(room[source := Window(now, 1)], true, 0)
  }

  // One attempt, as a step on the table.
  function Attempt(limit: int, attempts: map<Source, Window>, source: Source, now: Instant): Outcome {
    if source !in attempts then Admit(attempts, source, now)
    else if Over(attempts[source], now) then Admit(attempts - {source}, source, now)
    else if attempts[source].count >= limit then Outcome(attempts, false, PERIOD - (now - attempts[source].startedAt))
    else Outcome(attempts[source := attempts[source].(count := attempts[source].count + 1)], true, 0)
  }

  class Limiter {
    const limit: int
    var attempts: map<Source, Window>

    ghost predicate Valid()
      reads this
    {
      limit >= 1 && TableOk(limit, attempts)
    }

    constructor (configured: int)
      ensures limit == (if configured < 1 then DEFAULT_LIMIT else configured)
      ensures Valid() && attempts == map[]
    {
      limit := if configured < 1 then DEFAULT_LIMIT else configured;
      attempts := map[];
    }

    method Allow(source: Source, now: Instant) returns (allowed: bool, retryAfter: int)
      requires Valid()
      modifies this
      ensures Valid()
      ensures Outcome(attempts, allowed, retryAfter) == Attempt(limit, old(attempts), source, now)
    {
      TableStaysBounded(limit, attempts, source, now);
      hide TableOk;
      var known := source in attempts;
      if known && now - attempts[source].startedAt >= PERIOD {
        attempts := attempts - {source};
        known := false;
      }
      if !known {
        if |attempts| >= MAX_SOURCES {
          EvictExpired(now);
          if |attempts| >= MAX_SOURCES { return false, PERIOD; }
        }
        attempts := attempts[source := Window(now, 1)];
        return true, 0;
      }
      var w := attempts[source];
      if w.count >= limit { return false, PERIOD - (now - w.startedAt); }
      attempts := attempts[source := Window(w.startedAt, w.count + 1)];
      return true, 0;
    }

    method EvictExpired(now: Instant)
      modifies this
      ensures attempts == Kept(old(attempts), now)
    {
      var rest := attempts.Keys;
      ghost var seen: set<Source> := {};
      while rest != {}
        invariant seen + rest == old(attempts).Keys && seen !! rest
        invariant forall s :: s in attempts <==> s in old(attempts) && (s in seen ==> !Over(old(attempts)[s], now))
        invariant forall s :: s in attempts ==> attempts[s] == old(attempts)[s]
        decreases |rest|
      {
        var ip :| ip in rest;
        if now - attempts[ip].startedAt >= PERIOD { attempts := attempts - {ip}; }
        rest := rest - {ip};
        seen := seen + {ip};
      }
    }
  }

  // ----- the table -----

  predicate TableOk(limit: int, attempts: map<Source, Window>) {
    |attempts| <= MAX_SOURCES && forall s :: s in attempts ==> 1 <= attempts[s].count <= limit
  }

  lemma {:induction false} AddOne(attempts: map<Source, Window>, source: Source, w: Window)
    ensures |attempts[source := w]| == |attempts| + (if source in attempts then 0 else 1)
  {
    assert attempts[source := w].Keys == attempts.Keys + {source};
  }

  lemma {:induction false} KeptIsSmaller(attempts: map<Source, Window>, now: Instant)
    ensures |Kept(attempts, now)| <= |attempts|
  {
    Subset(Kept(attempts, now).Keys, attempts.Keys);
  }

  lemma {:induction false} Subset(a: set<Source>, b: set<Source>)
    requires a <= b
    ensures |a| <= |b|
  {
    if a != {} {
      var x :| x in a;
      Subset(a - {x}, b - {x});
    }
  }

  lemma {:induction false} AdmitStaysBounded(limit: int, attempts: map<Source, Window>, source: Source, now: Instant)
    requires limit >= 1 && TableOk(limit, attempts) && source !in attempts
    ensures TableOk(limit, Admit(attempts, source, now).attempts)
  {
    KeptIsSmaller(attempts, now);
    var room := if |attempts| >= MAX_SOURCES then Kept(attempts, now) else attempts;
    AddOne(room, source, Window(now, 1));
  }

  // The table never holds more than 10,000 sources, nor a count above the limit.
  lemma {:induction false} TableStaysBounded(limit: int, attempts: map<Source, Window>, source: Source, now: Instant)
    requires limit >= 1 && TableOk(limit, attempts)
    ensures TableOk(limit, Attempt(limit, attempts, source, now).attempts)
  {
    hide Admit;
    if source !in attempts {
      AdmitStaysBounded(limit, attempts, source, now);
    } else if Over(attempts[source], now) {
      Subset((attempts - {source}).Keys, attempts.Keys);
      AdmitStaysBounded(limit, attempts - {source}, source, now);
    } else {
      AddOne(attempts, source, attempts[source].(count := attempts[source].count + 1));
    }
  }

  // No attempt of anyone drops or shortens a live window.
  lemma {:induction false} LiveWindowsStay(limit: int, attempts: map<Source, Window>, source: Source, now: Instant,
        s: Source)
    requires s in attempts && !Over(attempts[s], now)
    ensures var after := Attempt(limit, attempts, source, now).attempts;
      s in after && after[s].startedAt == attempts[s].startedAt && attempts[s].count <= after[s].count &&
      (s != source ==> after[s] == attempts[s])
  {
  }

  // Refused exactly when the source's own live window is used up, or when it has none and 10,000
  // other windows are all live.
  lemma {:induction false} RefusedExactlyWhen(limit: int, attempts: map<Source, Window>, source: Source, now: Instant)
    requires limit >= 1 && TableOk(limit, attempts)
    ensures !Attempt(limit, attempts, source, now).allowed <==>
      if source in attempts && now - attempts[source].startedAt < 60_000_000_000 then attempts[source].count == limit
      else |set s | s in attempts && now - attempts[s].startedAt < 60_000_000_000| == 10_000
  {
    hide Attempt, TableOk;
    RefusedByTheTable(limit, attempts, source, now);
    assert Kept(attempts, now).Keys == set s | s in attempts && now - attempts[s].startedAt < 60_000_000_000;
  }

  lemma {:induction false} RefusedByTheTable(limit: int, attempts: map<Source, Window>, source: Source, now: Instant)
    requires limit >= 1 && TableOk(limit, attempts)
    ensures !Attempt(limit, attempts, source, now).allowed <==>
      if source in attempts && !Over(attempts[source], now) then attempts[source].count == limit
      else |Kept(attempts, now)| == MAX_SOURCES
  {
    if source !in attempts || Over(attempts[source], now) {
      var without := attempts - {source};
      assert Kept(without, now) == Kept(attempts, now);
      Subset(without.Keys, attempts.Keys);
      KeptIsSmaller(without, now);
      assert source !in attempts ==> without == attempts;
    }
  }

  // Waiting out the Retry-After of one's own window is enough.
  lemma {:induction false} WaitingIsEnough(limit: int, attempts: map<Source, Window>, source: Source, now: Instant)
    requires limit >= 1 && TableOk(limit, attempts) && source in attempts && !Over(attempts[source], now)
    requires !Attempt(limit, attempts, source, now).allowed
    ensures var r := Attempt(limit, attempts, source, now);
      r.attempts == attempts && 0 < r.retryAfter && Attempt(limit, attempts, source, now + r.retryAfter).allowed &&
      forall t :: now <= t < now + r.retryAfter ==> !Attempt(limit, attempts, source, t).allowed
  {
    var without := attempts - {source};
    assert attempts.Keys == without.Keys + {source};
    assert |attempts| == |without| + 1;
  }

  // ----- how many attempts an interval admits -----

  datatype Event = Event(source: Source, now: Instant)

  predicate InOrder(events: seq<Event>) {
    forall j, k :: 0 <= j < k < |events| ==> events[j].now <= events[k].now
  }

  predicate Counts(e: Event, source: Source, a: Instant) {
    e.source == source && a <= e.now < a + PERIOD
  }

  // Attempts of `source` admitted with a clock reading in [a, a + PERIOD).
  function Admitted(limit: int, attempts: map<Source, Window>, events: seq<Event>, source: Source, a: Instant): nat
    decreases |events|
  {
    if events == [] then 0
    else
      var r := Attempt(limit, attempts, events[0].source, events[0].now);
      (if r.allowed && Counts(events[0], source, a) then 1 else 0) + Admitted(limit, r.attempts, events[1..], source, a)
  }

  // What `n` admissions in the interval so far say about the source's window.
  predicate Spent(limit: int, attempts: map<Source, Window>, source: Source, a: Instant, n: nat) {
    if source !in attempts then n <= limit - 1
    else if attempts[source].startedAt < a then n <= attempts[source].count - 1
    else n <= limit - 1 + attempts[source].count
  }

  lemma {:induction false} OthersAttempt(limit: int, attempts: map<Source, Window>, e: Event, source: Source)
    requires e.source != source
    ensures var after := Attempt(limit, attempts, e.source, e.now).attempts;
      (source in after ==> source in attempts && after[source] == attempts[source]) &&
      (source in attempts && source !in after ==> Over(attempts[source], e.now))
  {
  }

  lemma {:induction false} OwnAttempt(limit: int, attempts: map<Source, Window>, source: Source, now: Instant)
    ensures var r := Attempt(limit, attempts, source, now);
      if source in attempts && !Over(attempts[source], now) then
        source in r.attempts && r.attempts[source].startedAt == attempts[source].startedAt &&
        r.attempts[source].count == attempts[source].count + (if r.allowed then 1 else 0)
      else if r.allowed then source in r.attempts && r.attempts[source] == Window(now, 1)
      else source !in r.attempts
  {
  }

  lemma {:induction false} OneAttempt(limit: int, attempts: map<Source, Window>, e: Event, source: Source, a: Instant,
        n: nat)
    requires limit >= 1 && TableOk(limit, attempts) && Spent(limit, attempts, source, a, n)
    requires e.now < a + PERIOD && (e.now < a ==> n == 0)
    ensures var r := Attempt(limit, attempts, e.source, e.now);
      Spent(limit, r.attempts, source, a, n + (if r.allowed && Counts(e, source, a) then 1 else 0))
  {
    hide Attempt;
    if e.source != source { OthersAttempt(limit, attempts, e, source); }
    else { OwnAttempt(limit, attempts, source, e.now); }
  }

  lemma {:induction false} IntervalBound(limit: int, attempts: map<Source, Window>, events: seq<Event>, source: Source,
        a: Instant, n: nat)
    requires limit >= 1 && TableOk(limit, attempts) && InOrder(events)
    requires n <= 2 * limit - 1
    requires events != [] && events[0].now < a + PERIOD ==> Spent(limit, attempts, source, a, n)
    requires events != [] && events[0].now < a ==> n == 0
    ensures n + Admitted(limit, attempts, events, source, a) <= 2 * limit - 1
    decreases |events|
  {
    if events != [] {
      var e := events[0];
      var r := Attempt(limit, attempts, e.source, e.now);
      TableStaysBounded(limit, attempts, e.source, e.now);
      if e.now < a + PERIOD { OneAttempt(limit, attempts, e, source, a, n); }
      var m := n + (if r.allowed && Counts(e, source, a) then 1 else 0);
      hide Attempt, TableOk, InOrder;
      TailInOrder(events);
      SpentBounds(limit, r.attempts, source, a, m) by { TableStaysBounded(limit, attempts, e.source, e.now); }
      IntervalBound(limit, r.attempts, events[1..], source, a, m);
    }
  }

  lemma {:induction false} TailInOrder(events: seq<Event>)
    requires InOrder(events) && events != []
    ensures InOrder(events[1..]) && (|events| > 1 ==> events[0].now <= events[1].now)
  {
  }

  lemma {:induction false} SpentBounds(limit: int, attempts: map<Source, Window>, source: Source, a: Instant, n: nat)
    requires limit >= 1 && TableOk(limit, attempts)
    ensures Spent(limit, attempts, source, a, n) ==> n <= 2 * limit - 1
  {
  }

  // With clock readings in lock order, no interval one period long admits more than 2 * limit - 1
  // attempts of one source, whatever the others do.
  lemma {:induction false} AdmissionsAreBounded(limit: int, events: seq<Event>, source: Source, a: Instant)
    requires limit >= 1 && InOrder(events)
    ensures Admitted(limit, map[], events, source, a) <= 2 * limit - 1
  {
    IntervalBound(limit, map[], events, source, a, 0);
  }

  // ----- the bound is reached -----

  function Burst(source: Source, now: Instant, k: nat): seq<Event> {
    seq(k, _ => Event(source, now))
  }

  lemma {:induction false} OneMore(limit: int, attempts: map<Source, Window>, e: Event, rest: seq<Event>,
        source: Source, a: Instant)
    ensures var r := Attempt(limit, attempts, e.source, e.now);
      Admitted(limit, attempts, [e] + rest, source, a) ==
        (if r.allowed && Counts(e, source, a) then 1 else 0) + Admitted(limit, r.attempts, rest, source, a)
  {
    assert ([e] + rest)[1..] == rest;
  }

  function Raised(attempts: map<Source, Window>, source: Source, k: nat): map<Source, Window>
    requires source in attempts
  {
    attempts[source := Window(attempts[source].startedAt, attempts[source].count + k)]
  }

  lemma {:induction false} BurstIsAdmitted(limit: int, attempts: map<Source, Window>, source: Source, now: Instant,
        k: nat, rest: seq<Event>, a: Instant)
    requires source in attempts && !Over(attempts[source], now) && attempts[source].count + k <= limit
    requires a <= now < a + PERIOD
    ensures Admitted(limit, attempts, Burst(source, now, k) + rest, source, a) ==
      k + Admitted(limit, Raised(attempts, source, k), rest, source, a)
    decreases k
  {
    if k == 0 {
      assert Burst(source, now, 0) + rest == rest;
      assert Raised(attempts, source, 0) == attempts;
    } else {
      assert Burst(source, now, k) + rest == [Event(source, now)] + (Burst(source, now, k - 1) + rest);
      var next := Raised(attempts, source, 1);
      assert Attempt(limit, attempts, source, now) == Outcome(next, true, 0);
      assert Raised(next, source, k - 1) == Raised(attempts, source, k);
      hide Attempt, Raised, Burst, Admitted;
      OneMore(limit, attempts, Event(source, now), Burst(source, now, k - 1) + rest, source, a);
      BurstIsAdmitted(limit, next, source, now, k - 1, rest, a);
    }
  }

  // One attempt just before the interval, limit - 1 near its end, and limit more as the window turns.
  function TightRun(limit: nat, source: Source, a: Instant): seq<Event>
    requires limit >= 1
  {
    [Event(source, a - 1)] + (Burst(source, a + PERIOD - 2, limit - 1) +
      ([Event(source, a + PERIOD - 1)] + (Burst(source, a + PERIOD - 1, limit - 1) + [])))
  }

  function Alone(source: Source, startedAt: Instant, count: nat): map<Source, Window> {
    map[source := Window(startedAt, count)]
  }

  lemma {:induction false} TightAttempts(limit: nat, source: Source, a: Instant)
    requires limit >= 1
    ensures Attempt(limit, map[], source, a - 1) == Outcome(Alone(source, a - 1, 1), true, 0)
    ensures Attempt(limit, Alone(source, a - 1, limit), source, a + PERIOD - 1) == Outcome(Alone(source,
        a + PERIOD - 1, 1), true, 0)
  {
    assert Alone(source, a - 1, limit) - {source} == map[];
  }

  lemma {:induction false} BoundIsReached(limit: nat, source: Source, a: Instant)
    requires limit >= 1
    ensures InOrder(TightRun(limit, source, a))
    ensures Admitted(limit, map[], TightRun(limit, source, a), source, a) == 2 * limit - 1
  {
    var t1, t2 := a + PERIOD - 2, a + PERIOD - 1;
    var first, full, second := Alone(source, a - 1, 1), Alone(source, a - 1, limit), Alone(source, t2, 1);
    TightAttempts(limit, source, a);
    hide Attempt, Burst, Admitted;
    var last := Burst(source, t2, limit - 1) + [];
    var turn := [Event(source, t2)] + last;
    OneMore(limit, map[], Event(source, a - 1), Burst(source, t1, limit - 1) + turn, source, a);
    BurstIsAdmitted(limit, first, source, t1, limit - 1, turn, a);
    OneMore(limit, full, Event(source, t2), last, source, a);
    BurstIsAdmitted(limit, second, source, t2, limit - 1, [], a);
    NothingMore(limit, Raised(second, source, limit - 1), source, a);
    TightRunInOrder(limit, source, a);
  }

  lemma {:induction false} NothingMore(limit: int, attempts: map<Source, Window>, source: Source, a: Instant)
    ensures Admitted(limit, attempts, [], source, a) == 0
  {
  }

  lemma {:induction false} TightRunInOrder(limit: nat, source: Source, a: Instant)
    requires limit >= 1
    ensures InOrder(TightRun(limit, source, a))
  {
  }

  // ----- readings that take effect late -----

  // Allow reads the clock before it takes the lock, so a reading may take effect after a later one.
  // If every attempt gets the lock within d of its reading, no reading lies more than d behind one
  // that took effect before it.
  predicate LagAtMost(events: seq<Event>, d: int) {
    forall j, k :: 0 <= j < k < |events| ==> events[j].now - events[k].now <= d
  }

  predicate Within(events: seq<Event>, lo: Instant, hi: Instant) {
    forall k :: 0 <= k < |events| ==> lo <= events[k].now <= hi
  }

  lemma {:induction false} LagOfConcat(a: seq<Event>, b: seq<Event>, d: nat, lo: Instant, mid: Instant, from: Instant,
        hi: Instant)
    requires LagAtMost(a, d) && Within(a, lo, mid) && LagAtMost(b, d) && Within(b, from, hi)
    requires mid - from <= d
    ensures LagAtMost(a + b, d)
    ensures Within(a + b, if lo < from then lo else from, if mid < hi then hi else mid)
  {
  }

  lemma {:induction false} LagOfBurst(source: Source, now: Instant, k: nat, d: nat)
    ensures LagAtMost(Burst(source, now, k), d) && Within(Burst(source, now, k), now, now)
  {
  }

  lemma {:induction false} LagOfOne(e: Event, d: nat)
    ensures LagAtMost([e], d) && Within([e], e.now, e.now)
  {
  }

  // A window turns in the interval, fills, and turns again just behind its end; limit - 1 readings
  // from just before the end then still find room in the next window.
  function TurningRun(limit: nat, source: Source, a: Instant): seq<Event>
    requires limit >= 1
  {
    [Event(source, a - PERIOD + 1)] + (Burst(source, a, limit - 1) +
      ([Event(source, a + 1)] + (Burst(source, a + 1, limit - 1) +
        ([Event(source, a + PERIOD + 1)] + (Burst(source, a + PERIOD - 1, limit - 1) + [])))))
  }

  lemma {:induction false} TurningAttempts(limit: nat, source: Source, a: Instant)
    requires limit >= 1
    ensures Attempt(limit, map[], source, a - PERIOD + 1) == Outcome(Alone(source, a - PERIOD + 1, 1), true, 0)
    ensures Attempt(limit, Alone(source, a - PERIOD + 1, limit), source, a + 1) ==
      Outcome(Alone(source, a + 1, 1), true, 0)
    ensures Attempt(limit, Alone(source, a + 1, limit), source, a + PERIOD + 1) ==
      Outcome(Alone(source, a + PERIOD + 1, 1), true, 0)
  {
    assert Alone(source, a - PERIOD + 1, limit) - {source} == map[];
    assert Alone(source, a + 1, limit) - {source} == map[];
  }

  // Two nanoseconds of lag are enough to admit 3 * limit - 2 attempts in one period.
  lemma {:induction false} LateReadingsBreakTheBound(limit: nat, source: Source, a: Instant)
    requires limit >= 1
    ensures LagAtMost(TurningRun(limit, source, a), 2)
    ensures Admitted(limit, map[], TurningRun(limit, source, a), source, a) == 3 * limit - 2
  {
    hide Attempt, Burst, Admitted, LagAtMost;
    var t1, t2, t3, t4 := a - PERIOD + 1, a + 1, a + PERIOD + 1, a + PERIOD - 1;
    TurningAttempts(limit, source, a);
    assert Raised(Alone(source, t1, 1), source, limit - 1) == Alone(source, t1, limit);
    assert Raised(Alone(source, t2, 1), source, limit - 1) == Alone(source, t2, limit);
    var r5 := Burst(source, t4, limit - 1) + [];
    var r4 := [Event(source, t3)] + r5;
    var r3 := Burst(source, t2, limit - 1) + r4;
    var r2 := [Event(source, t2)] + r3;
    var r1 := Burst(source, a, limit - 1) + r2;
    OneMore(limit, map[], Event(source, t1), r1, source, a);
    BurstIsAdmitted(limit, Alone(source, t1, 1), source, a, limit - 1, r2, a);
    OneMore(limit, Alone(source, t1, limit), Event(source, t2), r3, source, a);
    BurstIsAdmitted(limit, Alone(source, t2, 1), source, t2, limit - 1, r4, a);
    OneMore(limit, Alone(source, t2, limit), Event(source, t3), r5, source, a);
    BurstIsAdmitted(limit, Alone(source, t3, 1), source, t4, limit - 1, [], a);
    NothingMore(limit, Raised(Alone(source, t3, 1), source, limit - 1), source, a);
    TurningRunLag(limit, source, a);
  }

  lemma {:induction false} TurningRunLag(limit: nat, source: Source, a: Instant)
    requires limit >= 1
    ensures LagAtMost(TurningRun(limit, source, a), 2)
  {
    hide LagAtMost, Within, Burst;
    var t1, t2, t3, t4 := a - PERIOD + 1, a + 1, a + PERIOD + 1, a + PERIOD - 1;
    LagOfBurst(source, a, limit - 1, 2);
    LagOfBurst(source, t2, limit - 1, 2);
    LagOfBurst(source, t4, limit - 1, 2);
    LagOfOne(Event(source, t1), 2);
    LagOfOne(Event(source, t2), 2);
    LagOfOne(Event(source, t3), 2);
    var r5 := Burst(source, t4, limit - 1) + [];
    assert r5 == Burst(source, t4, limit - 1);
    var r4 := [Event(source, t3)] + r5;
    LagOfConcat([Event(source, t3)], r5, 2, t3, t3, t4, t4);
    var r3 := Burst(source, t2, limit - 1) + r4;
    LagOfConcat(Burst(source, t2, limit - 1), r4, 2, t2, t2, t4, t3);
    var r2 := [Event(source, t2)] + r3;
    LagOfConcat([Event(source, t2)], r3, 2, t2, t2, t2, t3);
    var r1 := Burst(source, a, limit - 1) + r2;
    LagOfConcat(Burst(source, a, limit - 1), r2, 2, a, a, t2, t3);
    LagOfConcat([Event(source, t1)], r1, 2, t1, t1, a, t3);
  }

  // ----- with a full table, any lag is enough -----

  // Names of other sources, all different: they are longer and longer.
  function Other(source: Source, k: nat): (other: Source)
    ensures |other| == |source| + 1 + k
  {
    seq(|source| + 1 + k, _ => 'x')
  }

  function Crowd(source: Source, now: Instant, i: nat, n: nat): seq<Event>
    decreases n - i
  {
    if i >= n then [] else [Event(Other(source, i), now)] + Crowd(source, now, i + 1, n)
  }

  // The source's full window and those of i others, all opened at the same instant.
  function CrowdTable(source: Source, now: Instant, limit: nat, i: nat): map<Source, Window> {
    if i == 0 then Alone(source, now, limit)
    else CrowdTable(source, now, limit, i - 1)[Other(source, i - 1) := Window(now, 1)]
  }

  lemma {:induction false} CrowdTableHolds(source: Source, now: Instant, limit: nat, i: nat)
    ensures var t := CrowdTable(source, now, limit, i);
      |t| == 1 + i && (forall s :: s in t ==> t[s].startedAt == now && |s| <= |source| + i)
  {
    if i > 0 {
      CrowdTableHolds(source, now, limit, i - 1);
      AddOne(CrowdTable(source, now, limit, i - 1), Other(source, i - 1), Window(now, 1));
    }
  }

  lemma {:induction false} CrowdIsAdmitted(limit: nat, source: Source, a: Instant, i: nat, rest: seq<Event>)
    requires i <= MAX_SOURCES - 1
    ensures Admitted(limit, CrowdTable(source, a, limit, i), Crowd(source, a, i, MAX_SOURCES - 1) + rest, source, a) ==
      Admitted(limit, CrowdTable(source, a, limit, MAX_SOURCES - 1), rest, source, a)
    decreases MAX_SOURCES - i
  {
    hide Admitted, CrowdTable;
    if i == MAX_SOURCES - 1 {
      assert Crowd(source, a, i, MAX_SOURCES - 1) + rest == rest;
    } else {
      var more := Crowd(source, a, i + 1, MAX_SOURCES - 1) + rest;
      assert Crowd(source, a, i, MAX_SOURCES - 1) + rest == [Event(Other(source, i), a)] + more;
      CrowdTurn(limit, source, a, i);
      OneMore(limit, CrowdTable(source, a, limit, i), Event(Other(source, i), a), more, source, a);
      CrowdIsAdmitted(limit, source, a, i + 1, rest);
    }
  }

  lemma {:induction false} CrowdTurn(limit: nat, source: Source, a: Instant, i: nat)
    requires i < MAX_SOURCES - 1
    ensures Attempt(limit, CrowdTable(source, a, limit, i), Other(source, i), a) ==
      Outcome(CrowdTable(source, a, limit, i + 1), true, 0)
  {
    CrowdTableHolds(source, a, limit, i);
  }

  // The source and 9,999 others fill the table; a newcomer one period later evicts them all; then the
  // source's readings from just before that find no window of its own.
  function EvictionRun(limit: nat, source: Source, a: Instant): seq<Event>
    requires limit >= 1
  {
    [Event(source, a)] + (Burst(source, a, limit - 1) + (Crowd(source, a, 0, MAX_SOURCES - 1) +
      ([Event(Other(source, MAX_SOURCES), a + PERIOD)] +
        ([Event(source, a + PERIOD - 1)] + (Burst(source, a + PERIOD - 1, limit - 1) + [])))))
  }

  function Beside(newcomer: Source, source: Source, a: Instant, count: nat): map<Source, Window> {
    Alone(newcomer, a + PERIOD, 1)[source := Window(a + PERIOD - 1, count)]
  }

  lemma {:induction false} EvictionAttempts(limit: nat, source: Source, a: Instant)
    requires limit >= 1
    ensures Attempt(limit, map[], source, a) == Outcome(Alone(source, a, 1), true, 0)
    ensures Attempt(limit, CrowdTable(source, a, limit, MAX_SOURCES - 1), Other(source, MAX_SOURCES), a + PERIOD) ==
      Outcome(Alone(Other(source, MAX_SOURCES), a + PERIOD, 1), true, 0)
    ensures Attempt(limit, Alone(Other(source, MAX_SOURCES), a + PERIOD, 1), source, a + PERIOD - 1) ==
      Outcome(Beside(Other(source, MAX_SOURCES), source, a, 1), true, 0)
  {
    var full := CrowdTable(source, a, limit, MAX_SOURCES - 1);
    CrowdTableHolds(source, a, limit, MAX_SOURCES - 1);
    assert Kept(full, a + PERIOD) == map[];
    assert |Alone(Other(source, MAX_SOURCES), a + PERIOD, 1)| == 1;
    hide CrowdTable;
  }

  lemma {:induction false} EvictionBreaksTheBound(limit: nat, source: Source, a: Instant)
    requires limit >= 1
    ensures LagAtMost(EvictionRun(limit, source, a), 1)
    ensures Admitted(limit, map[], EvictionRun(limit, source, a), source, a) == 2 * limit
  {
    hide Attempt, Burst, Admitted, LagAtMost, Crowd, CrowdTable, Other;
    var t := a + PERIOD - 1;
    var x := Other(source, MAX_SOURCES);
    EvictionAttempts(limit, source, a);
    var r5 := Burst(source, t, limit - 1) + [];
    var r4 := [Event(source, t)] + r5;
    var r3 := [Event(x, a + PERIOD)] + r4;
    var r2 := Crowd(source, a, 0, MAX_SOURCES - 1) + r3;
    var r1 := Burst(source, a, limit - 1) + r2;
    OneMore(limit, map[], Event(source, a), r1, source, a);
    BurstIsAdmitted(limit, Alone(source, a, 1), source, a, limit - 1, r2, a);
    FirstOfTheCrowd(source, a, limit);
    CrowdIsAdmitted(limit, source, a, 0, r3);
    OneMore(limit, CrowdTable(source, a, limit, MAX_SOURCES - 1), Event(x, a + PERIOD), r4, source, a);
    OneMore(limit, Alone(x, a + PERIOD, 1), Event(source, t), r5, source, a);
    BurstIsAdmitted(limit, Beside(x, source, a, 1), source, t, limit - 1, [], a);
    NothingMore(limit, Raised(Beside(x, source, a, 1), source, limit - 1), source, a);
    EvictionRunLag(limit, source, a);
  }

  lemma {:induction false} FirstOfTheCrowd(source: Source, a: Instant, limit: nat)
    requires limit >= 1
    ensures Raised(Alone(source, a, 1), source, limit - 1) == CrowdTable(source, a, limit, 0)
    ensures Other(source, MAX_SOURCES) != source
  {
  }

  lemma {:induction false} LagOfCrowd(source: Source, now: Instant, i: nat, n: nat, d: nat)
    ensures LagAtMost(Crowd(source, now, i, n), d) && Within(Crowd(source, now, i, n), now, now)
    decreases n - i
  {
    if i < n {
      LagOfCrowd(source, now, i + 1, n, d);
      hide Crowd;
      LagOfOne(Event(Other(source, i), now), d);
      LagOfConcat([Event(Other(source, i), now)], Crowd(source, now, i + 1, n), d, now, now, now, now);
    }
  }

  lemma {:induction false} EvictionRunLag(limit: nat, source: Source, a: Instant)
    requires limit >= 1
    ensures LagAtMost(EvictionRun(limit, source, a), 1)
  {
    hide LagAtMost, Within, Burst, Crowd, Other;
    var t, x := a + PERIOD - 1, Other(source, MAX_SOURCES);
    LagOfBurst(source, a, limit - 1, 1);
    LagOfBurst(source, t, limit - 1, 1);
    LagOfCrowd(source, a, 0, MAX_SOURCES - 1, 1);
    LagOfOne(Event(source, a), 1);
    LagOfOne(Event(source, t), 1);
    LagOfOne(Event(x, a + PERIOD), 1);
    var r5 := Burst(source, t, limit - 1) + [];
    assert r5 == Burst(source, t, limit - 1);
    var r4 := [Event(source, t)] + r5;
    LagOfConcat([Event(source, t)], r5, 1, t, t, t, t);
    var r3 := [Event(x, a + PERIOD)] + r4;
    LagOfConcat([Event(x, a + PERIOD)], r4, 1, a + PERIOD, a + PERIOD, t, t);
    var r2 := Crowd(source, a, 0, MAX_SOURCES - 1) + r3;
    LagOfConcat(Crowd(source, a, 0, MAX_SOURCES - 1), r3, 1, a, a, t, a + PERIOD);
    var r1 := Burst(source, a, limit - 1) + r2;
    LagOfConcat(Burst(source, a, limit - 1), r2, 1, a, a, a, a + PERIOD);
    LagOfConcat([Event(source, a)], r1, 1, a, a, a, a + PERIOD);
  }

  ghost predicate BoundHolds(limit: nat, d: nat) {
    forall events: seq<Event>, source: Source, a: Instant :: LagAtMost(events, d) ==>
      Admitted(limit, map[], events, source, a) <= 2 * limit - 1
  }

  // For every limit, the bound holds of all runs whose readings lag at most d exactly when d is zero,
  // that is, when readings take effect in order.
  lemma {:induction false} BoundHoldsExactlyWithoutLag(limit: nat, d: nat)
    requires limit >= 1
    ensures BoundHolds(limit, d) <==> d == 0
  {
    if d == 0 {
      forall events: seq<Event>, source: Source, a: Instant | LagAtMost(events, d)
        ensures Admitted(limit, map[], events, source, a) <= 2 * limit - 1
      {
        AdmissionsAreBounded(limit, events, source, a);
      }
    } else {
      EvictionBreaksTheBound(limit, "client", 0);
      MoreLag(EvictionRun(limit, "client", 0), 1, d);
    }
  }

  lemma {:induction false} MoreLag(events: seq<Event>, d: int, more: int)
    requires LagAtMost(events, d) && d <= more
    ensures LagAtMost(events, more)
  {
  }
}
