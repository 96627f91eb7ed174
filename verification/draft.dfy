// internal/batch/service.go: normalize, which canonicalises a batch request.
module DraftRequest {
  import opened Wrappers
  import opened RowOrder
  import opened Lifecycle

  const MAX_SIZE := 200

  // A card id as the client sent it: canonical UUID text, or anything else.
  datatype RawId = Canonical(id: Id) | Malformed(text: string)

  // The canonical request. Its JSON encoding is what the idempotency fingerprint is taken of.
  datatype CanonicalDraft = CanonicalDraft(target: Status, reason: string, cards: seq<Id>)

  predicate IsSpace(c: char) {
    c == ' ' || '\t' <= c <= '\r' || c == '\U{85}' || c == '\U{A0}' || c == '\U{1680}' ||
    '\U{2000}' <= c <= '\U{200A}' || c == '\U{2028}' || c == '\U{2029}' || c == '\U{202F}' ||
    c == '\U{205F}' || c == '\U{3000}'
  }

  // strings.TrimSpace
  function TrimSpace(s: string): (r: string)
    ensures r != "" ==> !IsSpace(r[0]) && !IsSpace(r[|r|-1])
  {
    if s == "" then s
    else if IsSpace(s[0]) then TrimSpace(s[1..])
    else if IsSpace(s[|s|-1]) then TrimSpace(s[..|s|-1])
    else s
  }

  predicate AllSpace(s: string) {
    forall k :: 0 <= k < |s| ==> IsSpace(s[k])
  }

  // Only white space is cut off, at the two ends, and all of it.
  lemma {:induction false} TrimSpaceCutsTheEnds(s: string) returns (before: string, after: string)
    ensures s == before + TrimSpace(s) + after && AllSpace(before) && AllSpace(after)
    ensures TrimSpace(s) == "" <==> AllSpace(s)
    decreases |s|
  {
    hide IsSpace, AllSpace;
    before, after := "", "";
    NothingIsSpace();
    if s != "" {
      var n := |s| - 1;
      if IsSpace(s[0]) {
        before, after := TrimSpaceCutsTheEnds(s[1..]);
        SpaceAndMore(s[0], before);
        SpaceAndMore(s[0], s[1..]);
        before := [s[0]] + before;
        assert s == [s[0]] + s[1..];
      } else if IsSpace(s[n]) {
        before, after := TrimSpaceCutsTheEnds(s[..n]);
        MoreAndSpace(after, s[n]);
        MoreAndSpace(s[..n], s[n]);
        after := after + [s[n]];
        assert s == s[..n] + [s[n]];
      } else {
        NotAllSpace(s);
      }
    }
  }

  lemma {:induction false} NothingIsSpace()
    ensures AllSpace("")
  {
  }

  lemma {:induction false} SpaceAndMore(c: char, s: string)
    requires IsSpace(c)
    ensures AllSpace([c] + s) <==> AllSpace(s)
  {
    hide IsSpace;
    forall k | 0 <= k < |s| ensures s[k] == ([c] + s)[k+1] {}
  }

  lemma {:induction false} MoreAndSpace(s: string, c: char)
    requires IsSpace(c)
    ensures AllSpace(s + [c]) <==> AllSpace(s)
  {
    hide IsSpace;
    forall k | 0 <= k < |s| ensures s[k] == (s + [c])[k] {}
  }

  lemma {:induction false} NotAllSpace(s: string)
    requires s != "" && !IsSpace(s[0])
    ensures !AllSpace(s)
  {
  }

  function ParseTarget(text: string): Option<Status> {
    if text == "active" then Some(Active)
    else if text == "suspended" then Some(Suspended)
    else if text == "closed" then Some(Closed)
    else None
  }

  predicate AllCanonical(raw: seq<RawId>) {
    forall k :: 0 <= k < |raw| ==> raw[k].Canonical?
  }

  function Ids(raw: seq<RawId>): (r: seq<Id>)
    requires AllCanonical(raw)
    ensures |r| == |raw| && forall k :: 0 <= k < |r| ==> r[k] == raw[k].id
  {
    seq(|raw|, k requires 0 <= k < |raw| => raw[k].id)
  }

  predicate Sorted(s: seq<Id>) {
    forall i, j :: 0 <= i < j < |s| ==> s[i] <= s[j]
  }

  predicate StrictlyAscending(s: seq<Id>) {
    forall i, j :: 0 <= i < j < |s| ==> s[i] < s[j]
  }

  predicate Distinct(s: seq<Id>) {
    forall i, j :: 0 <= i < j < |s| ==> s[i] != s[j]
  }

  // sort.Strings
  function Sort(s: seq<Id>): (r: seq<Id>)
    ensures Sorted(r) && multiset(r) == multiset(s)
  {
    if s == [] then []
    else
      assert s == [s[0]] + s[1..];
      Insert(s[0], Sort(s[1..]))
  }

  function Insert(x: Id, s: seq<Id>): (r: seq<Id>)
    requires Sorted(s)
    ensures Sorted(r) && multiset(r) == multiset(s) + multiset{x}
    ensures r != [] && (r[0] == x || (s != [] && r[0] == s[0]))
  {
    if s == [] || x <= s[0] then [x] + s
    else
      var t := Insert(x, s[1..]);
      SortedCons(s[0], t);
      assert s == [s[0]] + s[1..];
      [s[0]] + t
  }

  lemma {:induction false} SortedCons(x: Id, t: seq<Id>)
    requires Sorted(t) && (t != [] ==> x <= t[0])
    ensures Sorted([x] + t)
  {
    var r := [x] + t;
    forall i, j | 0 <= i < j < |r| ensures r[i] <= r[j] {
      assert r[j] == t[j-1];
      if j > 1 { assert t[0] <= t[j-1]; }
    }
  }

  function Normalize(target: string, reason: string, raw: seq<RawId>): Option<CanonicalDraft> {
    var t := ParseTarget(TrimSpace(target));
    var text := TrimSpace(reason);
    if t.None? || text == "" || |raw| == 0 || |raw| > MAX_SIZE || !AllCanonical(raw) then None
    else
      var ids := Sort(Ids(raw));
      if Distinct(ids) then Some(CanonicalDraft(t.value, text, ids)) else None
  }

  // The loops of normalize: check every id, sort the private copy, look for equal neighbours.
  method NormalizeRequest(target: string, reason: string, raw: seq<RawId>) returns (r: Option<CanonicalDraft>)
    ensures r == Normalize(target, reason, raw)
  {
    var t, text := ParseTarget(TrimSpace(target)), TrimSpace(reason);
    if t.None? { return None; }
    if text == "" || |raw| == 0 || |raw| > MAX_SIZE { return None; }
    var ids: seq<Id> := [];
    for k := 0 to |raw|
      invariant forall j :: 0 <= j < k ==> raw[j].Canonical?
      invariant |ids| == k && forall j :: 0 <= j < k ==> ids[j] == raw[j].id
    {
      if !raw[k].Canonical? { return None; }
      ids := ids + [raw[k].id];
    }
    assert ids == Ids(raw);
    ids := Sort(ids);
    for k := 1 to |ids|
      invariant forall i, j :: 0 <= i < j < k ==> ids[i] < ids[j]
    {
      if ids[k-1] == ids[k] { return None; }
    }
    return Some(CanonicalDraft(t.value, text, ids));
  }

  // A request is accepted exactly when it has a target, a reason and 1..200 pairwise distinct
  // canonical ids, and the accepted ids are the same ids in strictly ascending order.
  lemma {:induction false} NormalizeAccepts(target: string, reason: string, raw: seq<RawId>)
    ensures var r := Normalize(target, reason, raw);
      (r.Some? <==>
        TrimSpace(target) in {"active", "suspended", "closed"} && TrimSpace(reason) != "" &&
        1 <= |raw| <= 200 && AllCanonical(raw) && Distinct(Ids(raw))) &&
      (r.Some? ==>
        StrictlyAscending(r.value.cards) && multiset(r.value.cards) == multiset(Ids(raw)) &&
        |r.value.cards| == |raw| && r.value.target in {Active, Suspended, Closed})
  {
    if AllCanonical(raw) {
      var ids := Ids(raw);
      var s := Sort(ids);
      SameDistinctness(ids, s);
      assert |multiset(s)| == |multiset(ids)|;
    }
  }

  lemma {:induction false} CountIsPositive(s: seq<Id>, i: nat, j: nat)
    requires i < j < |s| && s[i] == s[j]
    ensures multiset(s)[s[i]] >= 2
  {
    assert s == s[..i] + [s[i]] + s[i+1..j] + [s[j]] + s[j+1..];
  }

  lemma {:induction false} RepeatedHasPair(s: seq<Id>, x: Id)
    requires multiset(s)[x] >= 2
    ensures !Distinct(s)
  {
    assert x in multiset(s);
    var i :| 0 <= i < |s| && s[i] == x;
    assert s == s[..i] + [x] + s[i+1..];
    var rest := s[..i] + s[i+1..];
    assert multiset(s) == multiset(rest) + multiset{x};
    assert x in multiset(rest);
    var k :| 0 <= k < |rest| && rest[k] == x;
    assert rest[k] == s[if k < i then k else k + 1];
  }

  lemma {:induction false} SameDistinctness(a: seq<Id>, b: seq<Id>)
    requires multiset(a) == multiset(b)
    ensures Distinct(a) <==> Distinct(b)
  {
    if !Distinct(a) {
      var i, j :| 0 <= i < j < |a| && a[i] == a[j];
      CountIsPositive(a, i, j);
      RepeatedHasPair(b, a[i]);
    }
    if !Distinct(b) {
      var i, j :| 0 <= i < j < |b| && b[i] == b[j];
      CountIsPositive(b, i, j);
      RepeatedHasPair(a, b[i]);
    }
  }

  // There is only one sorted arrangement of a multiset of ids.
  lemma {:induction false} SortedIsUnique(a: seq<Id>, b: seq<Id>)
    requires Sorted(a) && Sorted(b) && multiset(a) == multiset(b)
    ensures a == b
  {
    if a == [] {
      assert |multiset(b)| == 0;
    } else {
      assert |multiset(a)| == |multiset(b)|;
      SortedHead(a, b);
      SortedHead(b, a);
      HeadOff(a);
      HeadOff(b);
      hide Sorted;
      SortedIsUnique(a[1..], b[1..]);
    }
  }

  lemma {:induction false} HeadOff(s: seq<Id>)
    requires s != []
    ensures s == [s[0]] + s[1..] && multiset(s[1..]) == multiset(s) - multiset{s[0]}
    ensures Sorted(s) ==> Sorted(s[1..])
  {
    assert s == [s[0]] + s[1..];
  }

  lemma {:induction false} SortedHead(a: seq<Id>, b: seq<Id>)
    requires Sorted(a) && a != [] && b != [] && multiset(a) == multiset(b)
    ensures a[0] <= b[0]
  {
    assert b[0] in multiset(b);
    assert b[0] in multiset(a);
    var k :| 0 <= k < |a| && a[k] == b[0];
  }

  // Any reordering of the same ids is the same canonical request, so it has the same fingerprint.
  lemma {:induction false} ReorderingIsTheSameRequest(target: string, reason: string, raw: seq<RawId>,
        other: seq<RawId>)
    requires multiset(raw) == multiset(other)
    ensures Normalize(target, reason, raw) == Normalize(target, reason, other)
  {
    assert |multiset(raw)| == |multiset(other)|;
    SameCanonical(raw, other);
    if AllCanonical(raw) {
      IdsKeepMultiplicity(raw, other);
      SortedIsUnique(Sort(Ids(raw)), Sort(Ids(other)));
    }
  }

  lemma {:induction false} SameCanonical(raw: seq<RawId>, other: seq<RawId>)
    requires multiset(raw) == multiset(other)
    ensures AllCanonical(raw) <==> AllCanonical(other)
  {
    forall k | 0 <= k < |raw| ensures raw[k] in multiset(other) { assert raw[k] in multiset(raw); }
    forall k | 0 <= k < |other| ensures other[k] in multiset(raw) { assert other[k] in multiset(other); }
  }

  lemma {:induction false} IdsKeepMultiplicity(raw: seq<RawId>, other: seq<RawId>)
    requires AllCanonical(raw) && AllCanonical(other)
    requires multiset(raw) == multiset(other)
    ensures multiset(Ids(raw)) == multiset(Ids(other))
  {
    forall x: Id ensures multiset(Ids(raw))[x] == multiset(Ids(other))[x] {
      CountOfId(raw, x);
      CountOfId(other, x);
    }
  }

  lemma {:induction false} CountOfId(raw: seq<RawId>, x: Id)
    requires AllCanonical(raw)
    ensures multiset(Ids(raw))[x] == multiset(raw)[Canonical(x)]
  {
    if raw != [] {
      var last := |raw| - 1;
      assert raw == raw[..last] + [raw[last]];
      assert Ids(raw) == Ids(raw[..last]) + [raw[last].id];
      CountOfId(raw[..last], x);
    }
  }
}
